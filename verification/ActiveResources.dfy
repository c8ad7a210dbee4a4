/**
 The active-resource tables: a relational index of what is deployed, refined from graphs.

 resource_nodes is keyed by the node hash and resource_nodes_depends_on by (subject, target); the hash
 of an Environment and a coordinate is taken to be that pair.  Creating a Deployment stamps its graph;
 a successful one discards every node another Deployment stamped last, and the foreign keys cascade.
 */
module ActiveResources {
  import opened Basics
  import opened Graphs

  type DeploymentId = nat
  type Environment = nat

  datatype Key = Key(environment: Environment, coordinate: Coordinate)

  datatype NodeRow = NodeRow(deployment: DeploymentId, definition: string, version: string, metadata: string)

  datatype EdgeRow = EdgeRow(deployment: DeploymentId, alias: Alias)

  datatype Db = Db(nodes: map<Key, NodeRow>, edges: map<(Key, Key), EdgeRow>)

  /** A resolved node: module and edges by alias. */
  datatype Info = Info(definition: string, version: string, edges: map<Alias, Coordinate>)

  // ---------------------------------------------------------------- ResolveNodes

  function DefinitionOf(n: Node): string {
    if n.config.Some? then n.config.value.definition else ""
  }

  function VersionOf(n: Node): string {
    if n.config.Some? then n.config.value.version else ""
  }

  function Resolved(g: Graph): map<Coordinate, Info> {
    map c | c in g.nodes && !Deleted(g.nodes[c]) :: Info(DefinitionOf(g.nodes[c]), VersionOf(g.nodes[c]), EdgesOf(g, c))
  }

  /** ResolveNodes in any iteration order of the node map. */
  method ResolveNodes(g: Graph, order: seq<Coordinate>) returns (out: map<Coordinate, Info>)
    requires forall c :: c in order <==> c in g.nodes
    ensures out == Resolved(g)
  {
    out := map[];
    var k := 0;
    while k < |order|
      invariant 0 <= k <= |order|
      invariant forall c :: c in out <==> c in order[..k] && c in Resolved(g)
      invariant forall c :: c in out ==> out[c] == Resolved(g)[c]
    {
      var rc := order[k];
      var node := g.nodes[rc];
      assert order[..k + 1] == order[..k] + [rc];
      if !Deleted(node) {
        out := out[rc := Info(DefinitionOf(node), VersionOf(node), EdgesOf(g, rc))];
      }
      k := k + 1;
    }
    assert order[..|order|] == order;
  }

  // ---------------------------------------------------------------- the three statements of a stamp

  /** One row of the unnested INSERT. */
  datatype NewEdge = NewEdge(subject: Coordinate, target: Coordinate, alias: Alias)

  function NewEdges(g: Graph): set<NewEdge> {
    set c, a | c in g.nodes && !Deleted(g.nodes[c]) && a in EdgesOf(g, c) && EdgesOf(g, c)[a] in g.nodes :: NewEdge(c, EdgesOf(g, c)[a], a)
  }

  /** The inner loop of InitActiveResourcesFromGraph: one live node's edges to known nodes. */
  method CollectEdges(g: Graph, c: Coordinate) returns (edges: set<NewEdge>)
    requires IsLive(g, c)
    ensures forall e :: e in edges <==> e in NewEdges(g) && e.subject == c
  {
    edges := {};
    var out := EdgesOf(g, c);
    var left := out.Keys;
    while left != {}
      invariant left <= out.Keys
      invariant forall e :: e in edges <==> IsEdge(g, c, e) && e.alias !in left
      decreases |left|
    {
      var alias :| alias in left;
      left := left - {alias};
      if out[alias] in g.nodes { edges := edges + {NewEdge(c, out[alias], alias)}; }
    }
    forall e ensures IsEdge(g, c, e) <==> e in NewEdges(g) && e.subject == c { NewEdgeIs(g, e); }
    hide NewEdges, IsEdge;
  }

  predicate IsEdge(g: Graph, c: Coordinate, e: NewEdge) {
    e.subject == c && e.alias in EdgesOf(g, c) && EdgesOf(g, c)[e.alias] == e.target && e.target in g.nodes
  }

  /** The loops that fill the parameter arrays of the statements. */
  method CollectRows(g: Graph, order: seq<Coordinate>) returns (live: set<Coordinate>, edges: set<NewEdge>)
    requires forall c :: c in order <==> c in g.nodes
    ensures forall c :: c in live <==> IsLive(g, c)
    ensures edges == NewEdges(g)
  {
    forall e ensures e in NewEdges(g) ==> IsLive(g, e.subject) { NewEdgeIs(g, e); }
    hide NewEdges, EdgesOf;
    live, edges := {}, {};
    var k := 0;
    while k < |order|
      invariant 0 <= k <= |order|
      invariant forall c :: c in live <==> c in order[..k] && IsLive(g, c)
      invariant forall e :: e in edges <==> e in NewEdges(g) && e.subject in order[..k]
    {
      var c := order[k];
      assert order[..k + 1] == order[..k] + [c];
      if !Deleted(g.nodes[c]) {
        live := live + {c};
        var more := CollectEdges(g, c);
        edges := edges + more;
      }
      k := k + 1;
    }
    assert order[..|order|] == order;
    forall e | e in NewEdges(g) ensures e in edges { assert IsLive(g, e.subject); assert e.subject in order; }
  }

  predicate Stamps(g: Graph, environment: Environment, k: Key) {
    k.environment == environment && IsLive(g, k.coordinate)
  }

  /** INSERT ... ON CONFLICT (hash) DO UPDATE: a known node keeps its metadata. */
  function UpsertNodes(nodes: map<Key, NodeRow>, environment: Environment, d: DeploymentId, g: Graph): map<Key, NodeRow> {
    map k | k in nodes.Keys + (set c | c in g.nodes :: Key(environment, c)) && (k in nodes || Stamps(g, environment, k)) ::
      if Stamps(g, environment, k)
      then NodeRow(d, DefinitionOf(g.nodes[k.coordinate]), VersionOf(g.nodes[k.coordinate]), if k in nodes then nodes[k].metadata else "{}")
      else nodes[k]
  }

  /** One statement may not update a row twice: two aliases of one target are an error. */
  predicate OneAliasPerTarget(g: Graph) {
    forall e, f :: e in NewEdges(g) && f in NewEdges(g) && e.subject == f.subject && e.target == f.target ==> e.alias == f.alias
  }

  predicate TargetsExist(nodes: map<Key, NodeRow>, environment: Environment, g: Graph) {
    forall e :: e in NewEdges(g) ==> Key(environment, e.target) in nodes
  }

  predicate HasEdge(g: Graph, environment: Environment, p: (Key, Key)) {
    p.0.environment == environment && p.1.environment == environment
    && exists e :: e in NewEdges(g) && e.subject == p.0.coordinate && e.target == p.1.coordinate
  }

  function AliasOf(g: Graph, environment: Environment, p: (Key, Key)): Alias
    requires HasEdge(g, environment, p) && OneAliasPerTarget(g)
  {
    var e :| e in NewEdges(g) && e.subject == p.0.coordinate && e.target == p.1.coordinate;
    e.alias
  }

  /** An edge of a restamped node that another Deployment stamped. */
  predicate Stale(db: Db, environment: Environment, d: DeploymentId, nodes: map<Key, NodeRow>, p: (Key, Key))
    requires p in db.edges
  {
    p.0 in nodes && p.0.environment == environment && nodes[p.0].deployment == d && db.edges[p].deployment != d
  }

  /** INSERT of the edges, then DELETE of the edges that a restamped node had from other Deployments. */
  function UpsertEdges(db: Db, environment: Environment, d: DeploymentId, g: Graph, nodes: map<Key, NodeRow>): map<(Key, Key), EdgeRow>
    requires OneAliasPerTarget(g)
  {
    map p | p in db.edges.Keys + (set e | e in NewEdges(g) :: (Key(environment, e.subject), Key(environment, e.target)))
            && (HasEdge(g, environment, p) || (p in db.edges && !Stale(db, environment, d, nodes, p))) ::
      if HasEdge(g, environment, p) then EdgeRow(d, AliasOf(g, environment, p)) else db.edges[p]
  }

  /** InitActiveResourcesFromGraph as one transaction; None if a statement fails. */
  function Stamp(db: Db, environment: Environment, d: DeploymentId, g: Graph): Option<Db> {
    var nodes := UpsertNodes(db.nodes, environment, d, g);
    if !OneAliasPerTarget(g) || !TargetsExist(nodes, environment, g) then None
    else Some(Db(nodes, UpsertEdges(db, environment, d, g, nodes)))
  }

  /** DiscardOldActiveResources with its cascades. */
  function Discard(db: Db, environment: Environment, d: DeploymentId): Db {
    var nodes := map k | k in db.nodes && !(k.environment == environment && db.nodes[k].deployment != d) :: db.nodes[k];
    Db(nodes, map p | p in db.edges && p.0 in nodes && p.1 in nodes :: db.edges[p])
  }

  // ---------------------------------------------------------------- the view

  /** The edges a node is shown with: those its last Deployment stamped. */
  predicate Shown(db: Db, k: Key, a: Alias, t: Coordinate) {
    && k in db.nodes && (k, Key(k.environment, t)) in db.edges
    && db.edges[(k, Key(k.environment, t))] == EdgeRow(db.nodes[k].deployment, a)
  }

  /** GetActiveResources shows exactly the given nodes, with Deployment, module and edges. */
  ghost predicate Shows(db: Db, environment: Environment, view: map<Coordinate, (DeploymentId, Info)>) {
    && (forall c :: Key(environment, c) in db.nodes <==> c in view)
    && (forall c :: c in view ==> RowShows(db, environment, c, view[c].0, view[c].1))
  }

  ghost predicate RowShows(db: Db, environment: Environment, c: Coordinate, d: DeploymentId, info: Info) {
    var k := Key(environment, c);
    && k in db.nodes && db.nodes[k].deployment == d && db.nodes[k].definition == info.definition && db.nodes[k].version == info.version
    && (forall a, t :: Shown(db, k, a, t) <==> a in info.edges && info.edges[a] == t)
  }

  /** Each edge row belongs to existing nodes of one Environment and carries its subject's Deployment. */
  predicate EdgesOk(db: Db) {
    forall p :: p in db.edges ==> p.0 in db.nodes && p.1 in db.nodes && p.0.environment == p.1.environment && db.edges[p].deployment == db.nodes[p.0].deployment
  }

  // ---------------------------------------------------------------- stamping

  lemma NewEdgeIs(g: Graph, e: NewEdge)
    ensures e in NewEdges(g) <==> IsLive(g, e.subject) && e.alias in EdgesOf(g, e.subject) && EdgesOf(g, e.subject)[e.alias] == e.target && e.target in g.nodes
  {
  }

  /** A linked graph is stamped if and only if no live node has two aliases for one target. */
  lemma StampSucceedsIff(db: Db, environment: Environment, d: DeploymentId, g: Graph)
    requires Linked(g)
    ensures Stamp(db, environment, d, g).Some? <==>
              forall c, a, b :: IsLive(g, c) && a in EdgesOf(g, c) && b in EdgesOf(g, c) && EdgesOf(g, c)[a] == EdgesOf(g, c)[b] ==> a == b
  {
    AllTargetsStamped(db, environment, d, g);
    hide UpsertNodes, TargetsExist;
    if OneAliasPerTarget(g) {
      forall c, a, b | IsLive(g, c) && a in EdgesOf(g, c) && b in EdgesOf(g, c) && EdgesOf(g, c)[a] == EdgesOf(g, c)[b] ensures a == b {
        LiveTarget(g, c, a);
        var t := EdgesOf(g, c)[a];
        NewEdgeIs(g, NewEdge(c, t, a));
        NewEdgeIs(g, NewEdge(c, t, b));
        assert NewEdge(c, t, a) in NewEdges(g) && NewEdge(c, t, b) in NewEdges(g);
      }
    }
    if forall c, a, b :: IsLive(g, c) && a in EdgesOf(g, c) && b in EdgesOf(g, c) && EdgesOf(g, c)[a] == EdgesOf(g, c)[b] ==> a == b {
      forall e, f | e in NewEdges(g) && f in NewEdges(g) && e.subject == f.subject && e.target == f.target ensures e.alias == f.alias {
        NewEdgeIs(g, e);
        NewEdgeIs(g, f);
      }
    }
  }

  lemma LiveTarget(g: Graph, c: Coordinate, a: Alias)
    requires Linked(g) && IsLive(g, c) && a in EdgesOf(g, c)
    ensures IsLive(g, EdgesOf(g, c)[a])
  {
    var t := EdgesOf(g, c)[a];
    assert t in Targets(g, c) && c in g.edges;
    assert LinkOk(g, c, t);
  }

  lemma AllTargetsStamped(db: Db, environment: Environment, d: DeploymentId, g: Graph)
    requires Linked(g)
    ensures TargetsExist(UpsertNodes(db.nodes, environment, d, g), environment, g)
  {
    forall e | e in NewEdges(g) ensures Key(environment, e.target) in UpsertNodes(db.nodes, environment, d, g) {
      NewEdgeIs(g, e);
      hide Linked;
      LiveTarget(g, e.subject, e.alias);
      UpsertNodeIs(db.nodes, environment, d, g, Key(environment, e.target));
    }
  }

  lemma UpsertNodeIs(nodes: map<Key, NodeRow>, environment: Environment, d: DeploymentId, g: Graph, k: Key)
    ensures var nodes' := UpsertNodes(nodes, environment, d, g);
            && (k in nodes' <==> k in nodes || Stamps(g, environment, k))
            && (Stamps(g, environment, k) ==> nodes'[k].deployment == d && nodes'[k].definition == DefinitionOf(g.nodes[k.coordinate])
                                              && nodes'[k].version == VersionOf(g.nodes[k.coordinate])
                                              && (k in nodes ==> nodes'[k].metadata == nodes[k].metadata))
            && (k in nodes && !Stamps(g, environment, k) ==> nodes'[k] == nodes[k])
  {
    if Stamps(g, environment, k) { assert k == Key(environment, k.coordinate) && k.coordinate in g.nodes; }
  }

  lemma UpsertEdgeIs(db: Db, environment: Environment, d: DeploymentId, g: Graph, nodes: map<Key, NodeRow>, p: (Key, Key))
    requires OneAliasPerTarget(g)
    ensures var edges := UpsertEdges(db, environment, d, g, nodes);
            && (p in edges <==> (HasEdge(g, environment, p) || (p in db.edges && !Stale(db, environment, d, nodes, p))))
            && (p in edges ==> edges[p] == if HasEdge(g, environment, p) then EdgeRow(d, AliasOf(g, environment, p)) else db.edges[p])
  {
    if HasEdge(g, environment, p) {
      var e :| e in NewEdges(g) && e.subject == p.0.coordinate && e.target == p.1.coordinate;
      assert p == (Key(environment, e.subject), Key(environment, e.target));
    }
    hide AliasOf;
  }

  lemma HasEdgeIs(g: Graph, environment: Environment, p: (Key, Key))
    requires Linked(g)
    ensures HasEdge(g, environment, p) ==> Stamps(g, environment, p.0) && Stamps(g, environment, p.1)
  {
    if HasEdge(g, environment, p) {
      var e :| e in NewEdges(g) && e.subject == p.0.coordinate && e.target == p.1.coordinate;
      NewEdgeIs(g, e);
      hide Linked;
      LiveTarget(g, e.subject, e.alias);
    }
  }

  lemma HasAliasIs(g: Graph, environment: Environment, c: Coordinate, a: Alias, t: Coordinate)
    requires Linked(g) && OneAliasPerTarget(g) && IsLive(g, c)
    ensures var p := (Key(environment, c), Key(environment, t));
            (HasEdge(g, environment, p) && AliasOf(g, environment, p) == a) <==> (a in EdgesOf(g, c) && EdgesOf(g, c)[a] == t)
  {
    var p := (Key(environment, c), Key(environment, t));
    if a in EdgesOf(g, c) && EdgesOf(g, c)[a] == t {
      LiveTarget(g, c, a);
      NewEdgeIs(g, NewEdge(c, t, a));
      assert NewEdge(c, t, a) in NewEdges(g);
      assert HasEdge(g, environment, p);
    }
    if HasEdge(g, environment, p) && AliasOf(g, environment, p) == a {
      var e :| e in NewEdges(g) && e.subject == c && e.target == t;
      NewEdgeIs(g, e);
    }
  }

  /** No node carries the new Deployment's identifier yet. */
  predicate Unused(db: Db, d: DeploymentId) {
    forall k :: k in db.nodes ==> db.nodes[k].deployment != d
  }

  /** Every edge row carries its subject's Deployment, before and after. */
  lemma StampKeepsEdges(db: Db, environment: Environment, d: DeploymentId, g: Graph)
    requires EdgesOk(db) && Unused(db, d) && Linked(g) && Stamp(db, environment, d, g).Some?
    ensures EdgesOk(Stamp(db, environment, d, g).value)
  {
    var db' := Stamp(db, environment, d, g).value;
    forall p | p in db'.edges
      ensures p.0 in db'.nodes && p.1 in db'.nodes && p.0.environment == p.1.environment && db'.edges[p].deployment == db'.nodes[p.0].deployment
    {
      UpsertNodeIs(db.nodes, environment, d, g, p.0);
      UpsertNodeIs(db.nodes, environment, d, g, p.1);
      UpsertEdgeIs(db, environment, d, g, db'.nodes, p);
      HasEdgeIs(g, environment, p);
      hide Linked, HasEdge, UpsertNodes, UpsertEdges, OneAliasPerTarget, TargetsExist, AliasOf;
    }
  }

  /** The row of a node the graph stamps. */
  lemma StampedRow(db: Db, environment: Environment, d: DeploymentId, g: Graph, c: Coordinate)
    requires EdgesOk(db) && Unused(db, d) && Linked(g) && Stamp(db, environment, d, g).Some? && IsLive(g, c)
    ensures RowShows(Stamp(db, environment, d, g).value, environment, c, d, Resolved(g)[c])
  {
    var db' := Stamp(db, environment, d, g).value;
    var k := Key(environment, c);
    UpsertNodeIs(db.nodes, environment, d, g, k);
    assert OneAliasPerTarget(g);
    hide Linked, OneAliasPerTarget, UpsertNodes, UpsertEdges, TargetsExist, HasEdge, AliasOf;
    forall a, t ensures Shown(db', k, a, t) <==> a in EdgesOf(g, c) && EdgesOf(g, c)[a] == t {
      var p := (k, Key(environment, t));
      UpsertEdgeIs(db, environment, d, g, db'.nodes, p);
      HasAliasIs(g, environment, c, a, t);
    }
  }

  /** The row of a node the graph does not stamp. */
  lemma UnstampedRow(db: Db, environment: Environment, d: DeploymentId, g: Graph, c: Coordinate, of: DeploymentId, info: Info)
    requires EdgesOk(db) && Unused(db, d) && Linked(g) && Stamp(db, environment, d, g).Some? && !IsLive(g, c)
    requires RowShows(db, environment, c, of, info)
    ensures RowShows(Stamp(db, environment, d, g).value, environment, c, of, info)
  {
    var db' := Stamp(db, environment, d, g).value;
    var k := Key(environment, c);
    UpsertNodeIs(db.nodes, environment, d, g, k);
    forall a, t ensures Shown(db', k, a, t) <==> Shown(db, k, a, t) {
      var p := (k, Key(environment, t));
      UpsertEdgeIs(db, environment, d, g, db'.nodes, p);
      HasEdgeIs(g, environment, p);
      hide Linked, OneAliasPerTarget, UpsertNodes, UpsertEdges, TargetsExist, HasEdge, AliasOf;
    }
    hide Linked, OneAliasPerTarget, UpsertNodes, UpsertEdges, TargetsExist, HasEdge, AliasOf, Shown;
  }

  // ---------------------------------------------------------------- layers

  /** A graph that was stamped, and by which Deployment. */
  datatype Layer = Layer(deployment: DeploymentId, graph: Graph)

  type View = map<Coordinate, (DeploymentId, Info)>

  function LayerView(l: Layer): View {
    map c | c in Resolved(l.graph) :: (l.deployment, Resolved(l.graph)[c])
  }

  /** Later layers cover earlier ones, node by node. */
  function Overlay(layers: seq<Layer>): View {
    if layers == [] then map[] else Overlay(layers[..|layers| - 1]) + LayerView(layers[|layers| - 1])
  }

  lemma StampShows(db: Db, environment: Environment, view: View, l: Layer)
    requires Shows(db, environment, view) && EdgesOk(db) && Unused(db, l.deployment) && Linked(l.graph)
    requires Stamp(db, environment, l.deployment, l.graph).Some?
    ensures Shows(Stamp(db, environment, l.deployment, l.graph).value, environment, view + LayerView(l))
  {
    var d, g := l.deployment, l.graph;
    var db' := Stamp(db, environment, d, g).value;
    var view' := view + LayerView(l);
    forall c ensures Key(environment, c) in db'.nodes <==> c in view' { UpsertNodeIs(db.nodes, environment, d, g, Key(environment, c)); }
    forall c | c in view' ensures RowShows(db', environment, c, view'[c].0, view'[c].1) {
      if IsLive(g, c) { StampedRow(db, environment, d, g, c); } else { UnstampedRow(db, environment, d, g, c, view[c].0, view[c].1); }
    }
  }

  // ---------------------------------------------------------------- discarding

  lemma DiscardKeepsEdges(db: Db, environment: Environment, d: DeploymentId)
    requires EdgesOk(db)
    ensures EdgesOk(Discard(db, environment, d))
  {
  }

  /** Exactly the last layer stays: its nodes point only to nodes it stamped, so no cascade touches their edges. */
  lemma DiscardShows(db: Db, environment: Environment, view: View, l: Layer)
    requires Shows(db, environment, view + LayerView(l)) && Linked(l.graph)
    requires forall c :: c in view ==> view[c].0 != l.deployment
    ensures Shows(Discard(db, environment, l.deployment), environment, LayerView(l))
  {
    var d, g := l.deployment, l.graph;
    var db', all := Discard(db, environment, d), view + LayerView(l);
    forall c ensures Key(environment, c) in db'.nodes <==> c in LayerView(l) {
      if c in all { assert RowShows(db, environment, c, all[c].0, all[c].1); }
    }
    forall c | c in LayerView(l) ensures RowShows(db', environment, c, d, Resolved(g)[c]) {
      assert RowShows(db, environment, c, all[c].0, all[c].1);
      var k := Key(environment, c);
      forall a, t ensures Shown(db', k, a, t) <==> Shown(db, k, a, t) {
        if Shown(db, k, a, t) {
          assert a in Resolved(g)[c].edges && EdgesOf(g, c)[a] == t;
          LiveTarget(g, c, a);
          assert t in LayerView(l);
          assert Key(environment, t) in db'.nodes;
        }
      }
    }
  }

  /** A stamp or discard of one Environment leaves every other one alone. */
  lemma OtherEnvironmentsUntouched(db: Db, environment: Environment, d: DeploymentId, g: Graph, k: Key, p: (Key, Key))
    requires EdgesOk(db) && k.environment != environment && p.0 == k
    ensures var db' := Discard(db, environment, d);
            (k in db'.nodes <==> k in db.nodes) && (k in db.nodes ==> db'.nodes[k] == db.nodes[k])
            && (p in db'.edges <==> p in db.edges) && (p in db.edges ==> db'.edges[p] == db.edges[p])
    ensures Stamp(db, environment, d, g).Some? ==>
              var db' := Stamp(db, environment, d, g).value;
              (k in db'.nodes <==> k in db.nodes) && (k in db.nodes ==> db'.nodes[k] == db.nodes[k])
              && (p in db'.edges <==> p in db.edges) && (p in db.edges ==> db'.edges[p] == db.edges[p])
  {
    UpsertNodeIs(db.nodes, environment, d, g, k);
    if Stamp(db, environment, d, g).Some? { UpsertEdgeIs(db, environment, d, g, UpsertNodes(db.nodes, environment, d, g), p); }
  }

  // ---------------------------------------------------------------- runs

  datatype Mode = Deploy | Rollback | Destroy | DeployPlan | RollbackPlan

  /** graphs: what every Deployment was compiled from. layers: the graph of the last success, if any, and every graph stamped since. */
  datatype State = State(db: Db, running: Option<(DeploymentId, Mode)>, graphs: map<DeploymentId, Graph>, layers: seq<Layer>)

  /** to: the Deployment that a rollback or its plan goes back to. */
  datatype Event = Start(mode: Mode, d: DeploymentId, graph: Graph, to: Option<DeploymentId>) | Finish(succeeded: bool)

  /** A rollback reuses the nodes of an earlier Deployment of the Environment, and only a deployed Environment is destroyed. */
  predicate Allowed(s: State, e: Event)
    requires e.Start?
  {
    match e.mode
    case Deploy => true
    case DeployPlan => true
    case Destroy => s.graphs != map[]
    case Rollback => e.to.Some? && e.to.value in s.graphs && e.graph.nodes == s.graphs[e.to.value].nodes
    case RollbackPlan => e.to.Some? && e.to.value in s.graphs && e.graph.nodes == s.graphs[e.to.value].nodes
  }

  function Step(s: State, environment: Environment, e: Event): State {
    match e
    case Start(mode, d, graph, _) =>
      if s.running.Some? || d in s.graphs || !Allowed(s, e) then s
      else if mode == DeployPlan then s.(running := Some((d, mode)), graphs := s.graphs[d := graph])
      else
        var g := if mode == Destroy then Graph(map[], map[]) else graph;
        var db := Stamp(s.db, environment, d, g);
        if db.None? then s
        else State(db.value, Some((d, mode)), s.graphs[d := graph], s.layers + [Layer(d, g)])
    case Finish(succeeded) =>
      if s.running.None? then s
      else if succeeded && s.running.value.1 !in {DeployPlan, RollbackPlan} && s.layers != [] then
        State(Discard(s.db, environment, s.running.value.0), None, s.graphs, [s.layers[|s.layers| - 1]])
      else s.(running := None)
  }

  function Run(s: State, environment: Environment, events: seq<Event>): State
    decreases |events|
  {
    if events == [] then s else Run(Step(s, environment, events[0]), environment, events[1..])
  }

  const Initial := State(Db(map[], map[]), None, map[], [])

  predicate LinkedEvents(events: seq<Event>) {
    forall k :: 0 <= k < |events| && events[k].Start? ==> Linked(events[k].graph)
  }

  predicate LayersOk(layers: seq<Layer>, used: set<DeploymentId>) {
    && (forall k :: 0 <= k < |layers| ==> layers[k].deployment in used && Linked(layers[k].graph))
    && (forall j, k :: 0 <= j < k < |layers| ==> layers[j].deployment != layers[k].deployment)
  }

  ghost predicate Inv(s: State, environment: Environment) {
    && EdgesOk(s.db) && LayersOk(s.layers, s.graphs.Keys) && Shows(s.db, environment, Overlay(s.layers))
    && (forall k :: k in s.db.nodes ==> s.db.nodes[k].deployment in s.graphs)
    && (s.running.Some? ==> s.running.value.0 in s.graphs)
    && (s.running.Some? && s.running.value.1 != DeployPlan ==> s.layers != [] && s.layers[|s.layers| - 1].deployment == s.running.value.0)
  }

  lemma {:induction false} OverlayDeployments(layers: seq<Layer>, c: Coordinate)
    requires c in Overlay(layers)
    ensures exists k :: 0 <= k < |layers| && layers[k].deployment == Overlay(layers)[c].0 && IsLive(layers[k].graph, c)
    decreases |layers|
  {
    var n := |layers| - 1;
    if !IsLive(layers[n].graph, c) {
      OverlayDeployments(layers[..n], c);
      var k :| 0 <= k < n && layers[..n][k].deployment == Overlay(layers[..n])[c].0 && IsLive(layers[..n][k].graph, c);
      assert layers[k] == layers[..n][k];
    } else {
      assert layers[n].deployment == Overlay(layers)[c].0;
    }
  }

  lemma StartKeeps(s: State, environment: Environment, e: Event)
    requires Inv(s, environment) && e.Start? && Linked(e.graph)
    ensures Inv(Step(s, environment, e), environment)
  {
    hide Stamp, EdgesOk, Shows, LayersOk, Linked, Overlay;
    var s' := Step(s, environment, e);
    EmptyIsLinked();
    if s.running.None? && e.d !in s.graphs && Allowed(s, e) {
      if e.mode == DeployPlan { MoreUsed(s.layers, s.graphs.Keys, s'.graphs.Keys); }
      else {
        var g := if e.mode == Destroy then Graph(map[], map[]) else e.graph;
        if Stamp(s.db, environment, e.d, g).Some? { StampedKeeps(s, s', environment, Layer(e.d, g)); }
      }
    }
  }

  lemma EmptyIsLinked()
    ensures Linked(Graph(map[], map[]))
  {
  }

  lemma MoreUsed(layers: seq<Layer>, used: set<DeploymentId>, used': set<DeploymentId>)
    requires LayersOk(layers, used) && used <= used'
    ensures LayersOk(layers, used')
  {
    hide Linked;
  }

  lemma StampedKeeps(s: State, s': State, environment: Environment, l: Layer)
    requires EdgesOk(s.db) && LayersOk(s.layers, s.graphs.Keys) && Shows(s.db, environment, Overlay(s.layers))
    requires forall k :: k in s.db.nodes ==> s.db.nodes[k].deployment in s.graphs
    requires l.deployment !in s.graphs && Linked(l.graph) && Stamp(s.db, environment, l.deployment, l.graph) == Some(s'.db)
    requires s'.graphs.Keys == s.graphs.Keys + {l.deployment} && s'.layers == s.layers + [l]
    ensures EdgesOk(s'.db) && LayersOk(s'.layers, s'.graphs.Keys) && Shows(s'.db, environment, Overlay(s'.layers))
    ensures forall k :: k in s'.db.nodes ==> s'.db.nodes[k].deployment in s'.graphs
  {
    StampKeepsEdges(s.db, environment, l.deployment, l.graph);
    StampShows(s.db, environment, Overlay(s.layers), l);
    assert s'.layers[..|s'.layers| - 1] == s.layers;
    forall k | k in s'.db.nodes ensures s'.db.nodes[k].deployment in s'.graphs {
      UpsertNodeIs(s.db.nodes, environment, l.deployment, l.graph, k);
    }
    hide Stamp, EdgesOk, Shows, Linked;
  }

  lemma FinishKeeps(s: State, environment: Environment, succeeded: bool)
    requires Inv(s, environment)
    ensures Inv(Step(s, environment, Finish(succeeded)), environment)
  {
    if s.running.Some? && succeeded && s.running.value.1 !in {DeployPlan, RollbackPlan} && s.layers != [] {
      DiscardedKeeps(s, environment);
    }
    hide Discard, EdgesOk, Shows, LayersOk;
  }

  lemma DiscardedKeeps(s: State, environment: Environment)
    requires Inv(s, environment) && s.layers != []
    ensures var l := s.layers[|s.layers| - 1]; var db := Discard(s.db, environment, l.deployment);
            && EdgesOk(db) && LayersOk([l], s.graphs.Keys) && Shows(db, environment, Overlay([l]))
            && (forall k :: k in db.nodes ==> db.nodes[k].deployment in s.graphs)
  {
    hide Shows, EdgesOk, Linked, LayerView, Overlay;
    var n := |s.layers| - 1;
    var l, earlier := s.layers[n], s.layers[..n];
    DiscardKeepsEdges(s.db, environment, l.deployment);
    OverlayOne(l);
    OverlayLast(s.layers);
    forall c | c in Overlay(earlier) ensures Overlay(earlier)[c].0 != l.deployment {
      OverlayDeployments(earlier, c);
      var k :| 0 <= k < |earlier| && earlier[k].deployment == Overlay(earlier)[c].0 && IsLive(earlier[k].graph, c);
      assert earlier[k] == s.layers[k];
    }
    DiscardShows(s.db, environment, Overlay(earlier), l);
  }

  lemma OverlayOne(l: Layer)
    ensures Overlay([l]) == LayerView(l)
  {
    assert [l][..0] == [];
    assert Overlay([l][..0]) == map[];
  }

  lemma OverlayLast(layers: seq<Layer>)
    requires layers != []
    ensures Overlay(layers) == Overlay(layers[..|layers| - 1]) + LayerView(layers[|layers| - 1])
  {
    hide LayerView;
  }

  lemma {:induction false} RunKeeps(s: State, environment: Environment, events: seq<Event>)
    requires Inv(s, environment) && LinkedEvents(events)
    ensures Inv(Run(s, environment, events), environment)
    decreases |events|
  {
    if events != [] {
      hide Inv, Linked, Step;
      match events[0] {
        case Start(_, _, _, _) => StartKeeps(s, environment, events[0]);
        case Finish(succeeded) => FinishKeeps(s, environment, succeeded);
      }
      RunKeeps(Step(s, environment, events[0]), environment, events[1..]);
    }
  }

  lemma InitialIsFine(environment: Environment)
    ensures Inv(Initial, environment)
  {
  }

  // ---------------------------------------------------------------- theorems

  /**
   The tables refine the graphs: over every run with mixed outcomes, what GetActiveResources shows is the last successful
   Deployment's resolved graph overlaid with every graph stamped since, and each edge row carries its subject's Deployment.
   */
  lemma TablesRefineGraphs(environment: Environment, events: seq<Event>)
    requires LinkedEvents(events)
    ensures var s := Run(Initial, environment, events); EdgesOk(s.db) && Shows(s.db, environment, Overlay(s.layers))
  {
    hide Run, Shows, Linked, EdgesOk, Overlay, LayerView;
    InitialIsFine(environment);
    RunKeeps(Initial, environment, events);
  }

  /** After a success of a mutating Deployment the tables equal ResolveNodes of the graph it stamped, which is empty for a destroy. */
  lemma SuccessLeavesItsGraph(environment: Environment, events: seq<Event>, d: DeploymentId, mode: Mode)
    requires LinkedEvents(events) && Run(Initial, environment, events).running == Some((d, mode)) && mode in {Deploy, Rollback, Destroy}
    ensures var s := Run(Initial, environment, events); var s' := Step(s, environment, Finish(true));
            s.layers != [] && s.layers[|s.layers| - 1].deployment == d && Shows(s'.db, environment, LayerView(s.layers[|s.layers| - 1]))
  {
    hide Run, Shows, Linked, EdgesOk, Overlay, LayerView;
    InitialIsFine(environment);
    RunKeeps(Initial, environment, events);
    var s := Run(Initial, environment, events);
    DiscardedKeeps(s, environment);
    OverlayOne(s.layers[|s.layers| - 1]);
  }

  /** Between successes the tables hold exactly the nodes live in some graph stamped since the last success, that success included. */
  lemma {:induction false} OverlayKeys(layers: seq<Layer>, c: Coordinate)
    ensures c in Overlay(layers) <==> exists k :: 0 <= k < |layers| && IsLive(layers[k].graph, c)
    decreases |layers|
  {
    if layers != [] {
      var n := |layers| - 1;
      OverlayKeys(layers[..n], c);
      if k :| 0 <= k < n && IsLive(layers[k].graph, c) { assert layers[..n][k] == layers[k]; }
      if k :| 0 <= k < n && IsLive(layers[..n][k].graph, c) { assert layers[..n][k] == layers[k]; }
    }
  }

  /** New nodes never point to old ones, but an edge from an old node to a restamped one survives: exactly if it was there before. */
  lemma OldToNewEdgesSurvive(db: Db, environment: Environment, d: DeploymentId, g: Graph, p: (Key, Key))
    requires EdgesOk(db) && Unused(db, d) && Linked(g) && Stamp(db, environment, d, g).Some?
    ensures var db' := Stamp(db, environment, d, g).value;
            && (p in db'.edges && Stamps(g, environment, p.0) ==> Stamps(g, environment, p.1))
            && (!Stamps(g, environment, p.0) ==> (p in db'.edges <==> p in db.edges))
  {
    var db' := Stamp(db, environment, d, g).value;
    UpsertNodeIs(db.nodes, environment, d, g, p.0);
    UpsertEdgeIs(db, environment, d, g, db'.nodes, p);
    HasEdgeIs(g, environment, p);
    hide Linked, OneAliasPerTarget, UpsertNodes, UpsertEdges, TargetsExist, HasEdge, AliasOf;
  }

  /** Nodes of the Environment that carry d and nodes that do not are joined by no edge. */
  predicate Disjoint(db: Db, environment: Environment, d: DeploymentId) {
    forall p :: p in db.edges && p.0 in db.nodes && p.1 in db.nodes && p.0.environment == environment ==>
      (db.nodes[p.0].deployment == d <==> db.nodes[p.1].deployment == d)
  }

  /** No node outside the graph points to a node that is live in it. */
  predicate Unreferenced(db: Db, environment: Environment, g: Graph) {
    forall p :: p in db.edges && p.0.environment == environment && Stamps(g, environment, p.1) ==> Stamps(g, environment, p.0)
  }

  lemma NewerIffStamped(db: Db, environment: Environment, d: DeploymentId, g: Graph, k: Key)
    requires Unused(db, d) && Stamp(db, environment, d, g).Some? && k in Stamp(db, environment, d, g).value.nodes
    ensures Stamp(db, environment, d, g).value.nodes[k].deployment == d <==> Stamps(g, environment, k)
  {
    UpsertNodeIs(db.nodes, environment, d, g, k);
    hide OneAliasPerTarget, UpsertNodes, UpsertEdges, TargetsExist;
  }

  /** A stamp leaves the old and the new nodes as disjoint graphs if and only if no node outside the new graph pointed to a node live in it. */
  lemma OldAndNewDisjointIff(environment: Environment, events: seq<Event>, d: DeploymentId, g: Graph)
    requires LinkedEvents(events) && Linked(g) && d !in Run(Initial, environment, events).graphs
    requires Stamp(Run(Initial, environment, events).db, environment, d, g).Some?
    ensures var db := Run(Initial, environment, events).db;
            Disjoint(Stamp(db, environment, d, g).value, environment, d) <==> Unreferenced(db, environment, g)
  {
    InitialIsFine(environment);
    RunKeeps(Initial, environment, events);
    hide Run, Shows, Linked, Overlay, LayersOk, Stamps;
    var db := Run(Initial, environment, events).db;
    var db' := Stamp(db, environment, d, g).value;
    StampKeepsEdges(db, environment, d, g);
    hide Stamp;
    forall p ensures p in db'.edges && Stamps(g, environment, p.0) ==> Stamps(g, environment, p.1)
      ensures !Stamps(g, environment, p.0) ==> (p in db'.edges <==> p in db.edges)
    {
      OldToNewEdgesSurvive(db, environment, d, g, p);
    }
    forall k | k in db'.nodes ensures db'.nodes[k].deployment == d <==> Stamps(g, environment, k) { NewerIffStamped(db, environment, d, g, k); }
  }

  // ---------------------------------------------------------------- witnesses

  lemma TwoSteps(s: State, environment: Environment, a: Event, b: Event)
    ensures Run(s, environment, [a, b]) == Step(Step(s, environment, a), environment, b)
  {
    hide Step;
    assert [a, b][1..] == [b] && [b][1..] == [];
    assert Run(Step(s, environment, a), environment, [b]) == Run(Step(Step(s, environment, a), environment, b), environment, []);
  }

  lemma {:induction false} RunOn(s: State, environment: Environment, a: seq<Event>, b: seq<Event>)
    ensures Run(s, environment, a + b) == Run(Run(s, environment, a), environment, b)
    decreases |a|
  {
    hide Step;
    if a == [] { assert a + b == b; }
    else {
      assert (a + b)[1..] == a[1..] + b;
      RunOn(Step(s, environment, a[0]), environment, a[1..], b);
    }
  }

  /** No live node names one target twice. */
  predicate Stampable(g: Graph) {
    Linked(g) && OneAliasPerTarget(g)
  }

  /** A Deployment with this graph and its success. */
  function Succeeds(d: DeploymentId, g: Graph): seq<Event> {
    [Start(Deploy, d, g, None), Finish(true)]
  }

  lemma DeploySucceeds(s: State, environment: Environment, d: DeploymentId, g: Graph)
    requires Inv(s, environment) && s.running.None? && d !in s.graphs && Stampable(g)
    ensures var s' := Run(s, environment, Succeeds(d, g));
            && Inv(s', environment) && s'.running.None? && s'.graphs == s.graphs[d := g] && s'.layers == [Layer(d, g)]
            && Stamp(s.db, environment, d, g).Some? && s'.db == Discard(Stamp(s.db, environment, d, g).value, environment, d)
  {
    hide Shows, EdgesOk, LayersOk, Overlay, Discard, UpsertNodes, UpsertEdges, TargetsExist, Linked, OneAliasPerTarget;
    var e := Start(Deploy, d, g, None);
    AllTargetsStamped(s.db, environment, d, g);
    StartKeeps(s, environment, e);
    FinishKeeps(Step(s, environment, e), environment, true);
    TwoSteps(s, environment, e, Finish(true));
  }

  /**
   A whole plan, over every run: what the tables showed before is still what they show exactly if it plans a deploy, or a rollback to a
   graph without live nodes.  Otherwise every live node of the planned graph now belongs to the plan, although nothing was deployed.
   */
  lemma PlanLeavesViewIff(environment: Environment, events: seq<Event>, e: Event, succeeded: bool)
    requires LinkedEvents(events) && e.Start? && Linked(e.graph) && e.mode in {DeployPlan, RollbackPlan}
    requires var s := Run(Initial, environment, events); s.running.None? && e.d !in s.graphs && e.d in Step(s, environment, e).graphs
    ensures var s := Run(Initial, environment, events); var s' := Run(s, environment, [e, Finish(succeeded)]);
            && (Shows(s'.db, environment, Overlay(s.layers)) <==> e.mode == DeployPlan || forall c :: !IsLive(e.graph, c))
            && Shows(s'.db, environment, Overlay(s.layers) + (if e.mode == DeployPlan then map[] else LayerView(Layer(e.d, e.graph))))
  {
    InitialIsFine(environment);
    RunKeeps(Initial, environment, events);
    var s := Run(Initial, environment, events);
    PlanShows(s, environment, e, succeeded);
  }

  lemma PlanShows(s: State, environment: Environment, e: Event, succeeded: bool)
    requires Inv(s, environment) && e.Start? && Linked(e.graph) && e.mode in {DeployPlan, RollbackPlan}
    requires s.running.None? && e.d !in s.graphs && e.d in Step(s, environment, e).graphs
    ensures var s' := Run(s, environment, [e, Finish(succeeded)]);
            && (Shows(s'.db, environment, Overlay(s.layers)) <==> e.mode == DeployPlan || forall c :: !IsLive(e.graph, c))
            && Shows(s'.db, environment, Overlay(s.layers) + (if e.mode == DeployPlan then map[] else LayerView(Layer(e.d, e.graph))))
  {
    hide Shows, EdgesOk, Overlay, Stamp, Linked, LayerView, Resolved;
    var s1 := Step(s, environment, e);
    StartKeeps(s, environment, e);
    TwoSteps(s, environment, e, Finish(succeeded));
    assert Step(s1, environment, Finish(succeeded)).db == s1.db;
    var view := Overlay(s.layers);
    if e.mode == DeployPlan {
      assert view + map[] == view;
    } else {
      var l := Layer(e.d, e.graph);
      assert s1.layers == s.layers + [l];
      OverlayLast(s1.layers);
      assert s1.layers[..|s1.layers| - 1] == s.layers;
      assert Shows(s1.db, environment, view + LayerView(l));
      forall c | IsLive(e.graph, c) ensures !Shows(s1.db, environment, view) {
        if c in view {
          OverlayDeployments(s.layers, c);
        }
        CoveredView(s1.db, environment, view, l, c);
      }
      if forall c :: !IsLive(e.graph, c) { NothingLive(l); assert view + LayerView(l) == view; }
    }
  }

  lemma NothingLive(l: Layer)
    requires forall c :: !IsLive(l.graph, c)
    ensures LayerView(l) == map[]
  {
    assert forall c :: c in LayerView(l) ==> IsLive(l.graph, c);
  }

  lemma CoveredView(db: Db, environment: Environment, view: View, l: Layer, c: Coordinate)
    requires Shows(db, environment, view + LayerView(l)) && IsLive(l.graph, c) && (c in view ==> view[c].0 != l.deployment)
    ensures !Shows(db, environment, view)
  {
    var all := view + LayerView(l);
    assert c in LayerView(l) && all[c].0 == l.deployment;
    assert RowShows(db, environment, c, all[c].0, all[c].1);
    assert c in view && Shows(db, environment, view) ==> RowShows(db, environment, c, view[c].0, view[c].1);
  }

  /**
   A rollback plan stamps: after two successful Deployments, planning to go back to the first leaves the tables showing the first graph
   again, although the second one is what is deployed.
   */
  lemma RollbackPlanStamps(environment: Environment, g0: Graph, g1: Graph, c: Coordinate)
    requires Stampable(g0) && Stampable(g1) && IsLive(g0, c)
    ensures var s := Run(Initial, environment, Succeeds(1, g0) + Succeeds(2, g1));
            var s' := Run(s, environment, [Start(RollbackPlan, 3, g0, Some(1)), Finish(true)]);
            && Shows(s.db, environment, LayerView(Layer(2, g1))) && s'.running.None? && s'.graphs.Keys == {1, 2, 3}
            && !Shows(s'.db, environment, LayerView(Layer(2, g1)))
            && Shows(s'.db, environment, LayerView(Layer(2, g1)) + LayerView(Layer(3, g0)))
  {
    hide Run, Shows, EdgesOk, Overlay, Linked, LayerView, Discard, Succeeds, UpsertNodes, UpsertEdges, TargetsExist, OneAliasPerTarget, LayersOk;
    InitialIsFine(environment);
    DeploySucceeds(Initial, environment, 1, g0);
    var s1 := Run(Initial, environment, Succeeds(1, g0));
    DeploySucceeds(s1, environment, 2, g1);
    RunOn(Initial, environment, Succeeds(1, g0), Succeeds(2, g1));
    var s := Run(s1, environment, Succeeds(2, g1));
    OverlayOne(Layer(2, g1));
    var e := Start(RollbackPlan, 3, g0, Some(1));
    AllTargetsStamped(s.db, environment, 3, g0);
    assert s.graphs == map[1 := g0, 2 := g1];
    TwoSteps(s, environment, e, Finish(true));
    PlanShows(s, environment, e, true);
  }

  /** The graph of two nodes, the first depending on the second. */
  function Chain(a: Coordinate, b: Coordinate, n: Node): Graph {
    Graph(map[a := n, b := n], map[a := map[Named("b") := b]])
  }

  lemma ChainDeployed(environment: Environment, a: Coordinate, b: Coordinate, n: Node)
    requires a != b && a.kind != WORKLOAD && b.kind != WORKLOAD && n.config.Some? && !Deleted(n)
    ensures var g := Chain(a, b, n); var p := (Key(environment, a), Key(environment, b)); var stamped := Stamp(Initial.db, environment, 1, g);
            && stamped.Some? && p.0 in stamped.value.nodes && stamped.value.nodes[p.0].deployment == 1
            && p.1 in stamped.value.nodes && stamped.value.nodes[p.1].deployment == 1 && p in stamped.value.edges
  {
    var g, p := Chain(a, b, n), (Key(environment, a), Key(environment, b));
    ChainStamps(environment, a, b, n);
    AllTargetsStamped(Initial.db, environment, 1, g);
    assert Stamps(g, environment, p.0) && Stamps(g, environment, p.1);
    hide UpsertNodes, UpsertEdges, TargetsExist, OneAliasPerTarget, HasEdge, AliasOf, Linked, Chain, Stamps;
    var nodes := UpsertNodes(Initial.db.nodes, environment, 1, g);
    UpsertNodeIs(Initial.db.nodes, environment, 1, g, p.0);
    UpsertNodeIs(Initial.db.nodes, environment, 1, g, p.1);
    UpsertEdgeIs(Initial.db, environment, 1, g, nodes, p);
  }

  /** An old node keeps its edge to a restamped one: a depends on b, a deploy without a starts, and the edge row now joins an old and a new node. */
  lemma OldEdgeReachesNewNode(environment: Environment, a: Coordinate, b: Coordinate, n: Node)
    requires a != b && a.kind != WORKLOAD && b.kind != WORKLOAD && n.config.Some? && !Deleted(n)
    ensures var s := Run(Initial, environment, Succeeds(1, Chain(a, b, n)));
            var s' := Step(s, environment, Start(Deploy, 2, Graph(map[b := n], map[]), None));
            var p := (Key(environment, a), Key(environment, b));
            && p in s'.db.edges && p.0 in s'.db.nodes && p.1 in s'.db.nodes
            && s'.db.nodes[p.0].deployment == 1 && s'.db.nodes[p.1].deployment == 2 && !Disjoint(s'.db, environment, 2)
  {
    var g0, g1 := Chain(a, b, n), Graph(map[b := n], map[]);
    var p := (Key(environment, a), Key(environment, b));
    hide Run, Inv, Stampable, Step, Stamp, Disjoint, Succeeds, Chain, Stamps, HasEdge, Discard;
    ChainStamps(environment, a, b, n);
    InitialIsFine(environment);
    DeploySucceeds(Initial, environment, 1, g0);
    var s := Run(Initial, environment, Succeeds(1, g0));
    ChainDeployed(environment, a, b, n);
    DiscardKeepsOwn(Stamp(Initial.db, environment, 1, g0).value, environment, 1, p);
    OldEdgeStays(s, environment, 2, g1, p);
  }

  lemma OldEdgeStays(s: State, environment: Environment, d: DeploymentId, g: Graph, p: (Key, Key))
    requires Inv(s, environment) && s.running.None? && d !in s.graphs && Stampable(g)
    requires p in s.db.edges && p.0.environment == environment && !Stamps(g, environment, p.0) && Stamps(g, environment, p.1)
    ensures var s' := Step(s, environment, Start(Deploy, d, g, None));
            && p in s'.db.edges && p.0 in s'.db.nodes && p.1 in s'.db.nodes && p.0 in s.db.nodes
            && s'.db.nodes[p.0] == s.db.nodes[p.0] && s'.db.nodes[p.1].deployment == d && !Disjoint(s'.db, environment, d)
  {
    hide Inv, Stamp, Stamps, EdgesOk, Unused, Linked, OneAliasPerTarget, Disjoint;
    KeptParts(s, environment, d, p);
    StampableIs(s.db, environment, d, g);
    var db' := Stamp(s.db, environment, d, g).value;
    OldToNewEdgesSurvive(s.db, environment, d, g, p);
    StampedNode(s.db, environment, d, g, p.0);
    StampedNode(s.db, environment, d, g, p.1);
    Joined(db', environment, d, p);
  }

  lemma DiscardKeepsOwn(db: Db, environment: Environment, d: DeploymentId, p: (Key, Key))
    requires p in db.edges && p.0 in db.nodes && p.1 in db.nodes && db.nodes[p.0].deployment == d && db.nodes[p.1].deployment == d
    ensures var db' := Discard(db, environment, d); p in db'.edges && p.0 in db'.nodes && db'.nodes[p.0] == db.nodes[p.0]
  {
  }

  lemma Joined(db: Db, environment: Environment, d: DeploymentId, p: (Key, Key))
    requires p in db.edges && p.0 in db.nodes && p.1 in db.nodes && p.0.environment == environment
    requires db.nodes[p.0].deployment != d && db.nodes[p.1].deployment == d
    ensures !Disjoint(db, environment, d)
  {
  }

  lemma KeptParts(s: State, environment: Environment, d: DeploymentId, p: (Key, Key))
    requires Inv(s, environment) && d !in s.graphs && p in s.db.edges
    ensures EdgesOk(s.db) && Unused(s.db, d) && p.0 in s.db.nodes && s.db.nodes[p.0].deployment != d
  {
    hide Shows, LayersOk, Overlay;
  }

  lemma StampableIs(db: Db, environment: Environment, d: DeploymentId, g: Graph)
    requires Stampable(g)
    ensures Linked(g) && Stamp(db, environment, d, g).Some?
  {
    hide Linked, OneAliasPerTarget, TargetsExist, UpsertNodes, UpsertEdges;
    AllTargetsStamped(db, environment, d, g);
  }

  lemma StampedNode(db: Db, environment: Environment, d: DeploymentId, g: Graph, k: Key)
    requires Stamp(db, environment, d, g).Some?
    ensures var nodes := Stamp(db, environment, d, g).value.nodes;
            && (Stamps(g, environment, k) ==> k in nodes && nodes[k].deployment == d)
            && (!Stamps(g, environment, k) && k in db.nodes ==> k in nodes && nodes[k] == db.nodes[k])
  {
    UpsertNodeIs(db.nodes, environment, d, g, k);
    hide OneAliasPerTarget, TargetsExist, UpsertNodes, UpsertEdges;
  }

  lemma ChainStamps(environment: Environment, a: Coordinate, b: Coordinate, n: Node)
    requires a != b && a.kind != WORKLOAD && b.kind != WORKLOAD && n.config.Some? && !Deleted(n)
    ensures Stampable(Chain(a, b, n)) && Stampable(Graph(map[b := n], map[]))
    ensures HasEdge(Chain(a, b, n), environment, (Key(environment, a), Key(environment, b)))
    ensures var g := Graph(map[b := n], map[]); !Stamps(g, environment, Key(environment, a)) && Stamps(g, environment, Key(environment, b))
  {
    var g := Chain(a, b, n);
    assert EdgesOf(g, a)[Named("b")] == b;
    assert NewEdge(a, b, Named("b")) in NewEdges(g);
  }
}
