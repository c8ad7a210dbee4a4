/**
 Runs of deployments over one Environment: which graph each Deployment is compiled from.

 A deploy expands a fresh graph and buries the nodes of the last state Deployment's graph, including its
 tombstones if that Deployment failed.  A rollback reuses the graph of an earlier Deployment, a destroy
 that of the last one.  Then the provider placeholders of every node are resolved, which adds edges;
 a placeholder that names a tombstone refuses the Deployment.  The stored graph is that one.
 */
module GraphRuns {
  import opened Basics
  import opened Graphs

  datatype Deployed = Deployed(graph: Graph, failed: bool)

  /** providers: the resolved provider placeholders, node by node in iteration order. */
  datatype Event =
    | Deploy(expanded: Graph, providers: seq<(Coordinate, seq<Sub>)>, failed: bool)
    | Rollback(to: nat, providers: seq<(Coordinate, seq<Sub>)>, failed: bool)
    | Destroy(providers: seq<(Coordinate, seq<Sub>)>, failed: bool)

  type History = seq<Deployed>

  /** The graph before provider mapping, if the request is possible. */
  function Base(h: History, e: Event): Option<Graph> {
    match e
    case Deploy(g, _, _) =>
      if h == [] then Some(g) else Some(Tombstoned(g, h[|h| - 1].graph, h[|h| - 1].failed))
    case Rollback(to, _, _) => if to < |h| then Some(h[to].graph) else None
    case Destroy(_, _) => if h == [] then None else Some(h[|h| - 1].graph)
  }

  /** AddProviderMappingToNodes, as far as edges go. */
  function MapProviders(g: Graph, providers: seq<(Coordinate, seq<Sub>)>): Option<Graph>
    decreases |providers|
  {
    if providers == [] then Some(g)
    else
      var next := Resolve(g, providers[0].0, providers[0].1);
      if next.None? then None else MapProviders(next.value, providers[1..])
  }

  /** What the graph library promises about an event's graphs and placeholders. */
  predicate Promised(h: History, e: Event) {
    && (e.Deploy? ==> Fresh(e.expanded))
    && (Base(h, e).Some? ==> ProvidersKnown(Base(h, e).value, e.providers))
  }

  predicate ProvidersKnown(g: Graph, providers: seq<(Coordinate, seq<Sub>)>) {
    forall k :: 0 <= k < |providers| ==> providers[k].0 in g.nodes && Known(g, providers[k].1)
  }

  function Compiled(h: History, e: Event): Option<Graph> {
    var base := Base(h, e);
    if base.None? then None else MapProviders(base.value, e.providers)
  }

  function Step(h: History, e: Event): History {
    var g := Compiled(h, e);
    if g.None? then h else h + [Deployed(g.value, e.failed)]
  }

  function Run(h: History, events: seq<Event>): History
    decreases |events|
  {
    if events == [] then h else Run(Step(h, events[0]), events[1..])
  }

  predicate AllPromised(h: History, events: seq<Event>)
    decreases |events|
  {
    events == [] || (Promised(h, events[0]) && AllPromised(Step(h, events[0]), events[1..]))
  }

  predicate AllLinked(h: History) {
    forall k :: 0 <= k < |h| ==> Linked(h[k].graph)
  }

  // ---------------------------------------------------------------- links over runs

  lemma {:induction false} MapProvidersLinks(g: Graph, providers: seq<(Coordinate, seq<Sub>)>)
    requires Linked(g) && ProvidersKnown(g, providers)
    ensures var g' := MapProviders(g, providers); g'.Some? ==> Linked(g'.value) && g'.value.nodes == g.nodes
    decreases |providers|
  {
    hide Linked, Known, Resolve;
    if providers != [] {
      var (c, subs) := providers[0];
      ResolveLinks(g, c, subs);
      var next := Resolve(g, c, subs);
      if next.Some? {
        var rest := providers[1..];
        forall k | 0 <= k < |rest| ensures rest[k].0 in next.value.nodes && Known(next.value, rest[k].1) {
          assert rest[k] == providers[k + 1];
          KnownStays(g, next.value, rest[k].1);
        }
        MapProvidersLinks(next.value, rest);
      }
    }
  }

  lemma CompiledLinks(h: History, e: Event)
    requires AllLinked(h) && Promised(h, e)
    ensures Compiled(h, e).Some? ==> Linked(Compiled(h, e).value) && Compiled(h, e).value.nodes == Base(h, e).value.nodes
  {
    if Base(h, e).Some? {
      var g := Base(h, e).value;
      hide Linked, Tombstoned;
      if e.Deploy? {
        FreshLinked(e.expanded);
        if h != [] { TombstonedLinked(e.expanded, h[|h| - 1].graph, h[|h| - 1].failed); }
      }
      MapProvidersLinks(g, e.providers);
    }
  }

  lemma FreshLinked(g: Graph)
    requires Fresh(g)
    ensures Linked(g)
  {
    hide Linked;
  }

  /** Over any run of deploys, rollbacks and destroys, every stored graph is closed and its live nodes point only to live nodes. */
  lemma {:induction false} RunsStayLinked(h: History, events: seq<Event>)
    requires AllLinked(h) && AllPromised(h, events)
    ensures AllLinked(Run(h, events))
    decreases |events|
  {
    if events != [] {
      CompiledLinks(h, events[0]);
      hide Linked, Compiled, Promised;
      RunsStayLinked(Step(h, events[0]), events[1..]);
    }
  }

  /**
   References resolve: after any run, whatever is compiled next, the depends_on entries and resource references of a module
   block, including those its own placeholders add, all name emitted module blocks.
   */
  lemma ReferencesResolve(events: seq<Event>, next: Event, c: Coordinate, subs: seq<Sub>)
    requires AllPromised([], events) && Promised(Run([], events), next)
    requires var g := Compiled(Run([], events), next);
             g.Some? && Emitted(g.value, c) && Known(g.value, subs) && Resolve(g.value, c, subs).Some?
    ensures var g := Resolve(Compiled(Run([], events), next).value, c, subs).value;
            && (forall t :: t in Targets(g, c) ==> Emitted(g, t))
            && (forall k :: 0 <= k < |subs| && subs[k].Resource? ==> subs[k].target in Targets(g, c))
  {
    var h := Run([], events);
    RunsStayLinked([], events);
    CompiledLinks(h, next);
    var g := Compiled(h, next).value;
    ResolveLinks(g, c, subs);
    var g' := Resolve(g, c, subs).value;
    NewBlock(g, g', map[c := subs], c);
    hide Linked, Resolve, Compiled, Run;
    assert BlockOk(g', map[c := subs], Block(c, Targets(g', c), subs));
  }

  // ---------------------------------------------------------------- the tombstone law

  predicate OnlyDeploysWithout(events: seq<Event>, n: Coordinate) {
    forall k :: 0 <= k < |events| ==> events[k].Deploy? && n !in events[k].expanded.nodes
  }

  /** Every deploy of the run is accepted. */
  predicate AllAccepted(h: History, events: seq<Event>)
    decreases |events|
  {
    events == [] || (Compiled(h, events[0]).Some? && AllAccepted(Step(h, events[0]), events[1..]))
  }

  predicate AllFailed(events: seq<Event>) {
    forall k :: 0 <= k < |events| ==> events[k].failed
  }

  function Last(h: History): Deployed
    requires h != []
  {
    h[|h| - 1]
  }

  /** The node's configuration must outlive the next deploy that lacks the node. */
  predicate MustStay(h: History, n: Coordinate) {
    h != [] && n in Last(h).graph.nodes && (IsLive(Last(h).graph, n) || Last(h).failed)
  }

  predicate BuriedLast(h: History, n: Coordinate) {
    h != [] && IsTombstone(Last(h).graph, n)
  }

  /** One accepted deploy without the node. */
  lemma DeployWithout(h: History, e: Event, n: Coordinate)
    requires h != [] && AllLinked(h) && Promised(h, e) && e.Deploy? && n !in e.expanded.nodes && Compiled(h, e).Some? && n.kind != WORKLOAD
    ensures var h' := Step(h, e);
            && h' != [] && AllLinked(h')
            && (BuriedLast(h', n) <==> MustStay(h, n)) && (n in Last(h').graph.nodes <==> BuriedLast(h', n))
            && (MustStay(h', n) <==> MustStay(h, n) && e.failed)
  {
    CompiledLinks(h, e);
    TombstonedIs(e.expanded, Last(h).graph, Last(h).failed, n);
    assert Linked(Last(h).graph);
    assert n in Last(h).graph.nodes ==> Last(h).graph.nodes[n].config.Some?;
    hide Linked, MapProviders, Tombstoned, Fresh;
    var g := Compiled(h, e).value;
    assert g.nodes == Base(h, e).value.nodes;
  }

  lemma {:induction false} BuriedWhileFailing(h: History, events: seq<Event>, n: Coordinate)
    requires h != [] && AllLinked(h) && AllPromised(h, events) && AllAccepted(h, events) && OnlyDeploysWithout(events, n)
    requires events != [] && n.kind != WORKLOAD
    ensures var h' := Run(h, events);
            && h' != [] && (n in Last(h').graph.nodes <==> BuriedLast(h', n))
            && (BuriedLast(h', n) <==> MustStay(h, n) && AllFailed(events[..|events| - 1]))
    decreases |events|
  {
    hide AllLinked, Compiled, Promised, BuriedLast, MustStay, AllFailed, Step;
    var e, rest := events[0], events[1..];
    DeployWithout(h, e, n);
    if rest == [] {
      assert events[..|events| - 1] == [];
      NoneFailed();
      assert Run(h, events) == Run(Step(h, e), []) == Step(h, e);
    } else {
      assert OnlyDeploysWithout(rest, n) by { assert forall k :: 0 <= k < |rest| ==> rest[k] == events[k + 1]; }
      BuriedWhileFailing(Step(h, e), rest, n);
      assert events[..|events| - 1] == [e] + rest[..|rest| - 1];
      AllFailedFirst(e, rest[..|rest| - 1]);
    }
  }

  lemma NoneFailed()
    ensures AllFailed([])
  {
  }

  lemma AllFailedFirst(e: Event, rest: seq<Event>)
    ensures AllFailed([e] + rest) <==> e.failed && AllFailed(rest)
  {
    var all := [e] + rest;
    assert all[0] == e && forall k :: 0 <= k < |rest| ==> rest[k] == all[k + 1];
  }

  /**
   The tombstone law: a resource node whose last live graph is the current one is, after any number of further deploys without
   it, a tombstone if and only if all of them but the last failed, and absent otherwise.  So it is a tombstone up to and including
   the first successful Deployment, however many failures come between, and gone from the next.
   */
  lemma TombstoneLaw(h: History, events: seq<Event>, n: Coordinate)
    requires h != [] && AllLinked(h) && AllPromised(h, events) && AllAccepted(h, events) && OnlyDeploysWithout(events, n)
    requires events != [] && Emitted(Last(h).graph, n)
    ensures var h' := Run(h, events);
            && h' != []
            && (IsTombstone(Last(h').graph, n) <==> AllFailed(events[..|events| - 1]))
            && (n in Last(h').graph.nodes <==> IsTombstone(Last(h').graph, n))
  {
    hide AllLinked, AllPromised, AllAccepted, AllFailed, Run, OnlyDeploysWithout;
    BuriedWhileFailing(h, events, n);
  }

  // ---------------------------------------------------------------- selectors

  /** Following dependency edges from the first node to the last. */
  predicate Chain(g: Graph, path: seq<Coordinate>) {
    forall k :: 0 <= k < |path| - 1 ==> path[k + 1] in Targets(g, path[k])
  }

  lemma {:induction false} DependenciesAreEmitted(g: Graph, path: seq<Coordinate>, k: nat)
    requires Linked(g) && Chain(g, path) && 0 < k < |path| && IsLive(g, path[0])
    ensures Emitted(g, path[k])
    decreases k
  {
    if k > 1 { DependenciesAreEmitted(g, path, k - 1); }
    assert path[(k - 1) + 1] in Targets(g, path[k - 1]);
    assert LinkOk(g, path[k - 1], path[k]);
  }

  /** What the request and the history say of a node: its module will not be written any more. */
  predicate Removed(h: History, e: Event, n: Coordinate) {
    match e
    case Deploy(expanded, _, _) => n !in expanded.nodes && MustStay(h, n)
    case Rollback(to, _, _) => to < |h| && IsTombstone(h[to].graph, n)
    case Destroy(_, _) => BuriedLast(h, n)
  }

  lemma TombstoneIffRemoved(h: History, e: Event, n: Coordinate)
    requires AllLinked(h) && Promised(h, e) && Compiled(h, e).Some? && n.kind != WORKLOAD
    ensures IsTombstone(Compiled(h, e).value, n) <==> Removed(h, e, n)
  {
    CompiledLinks(h, e);
    assert Compiled(h, e).value.nodes == Base(h, e).value.nodes;
    if e.Deploy? && h != [] {
      assert Linked(Last(h).graph);
      TombstonedIs(e.expanded, Last(h).graph, Last(h).failed, n);
    }
    hide MapProviders, Tombstoned;
  }

  /**
   A selector's rendered tuple names only emitted blocks if and only if no match was removed: for a deploy, the last graph had it, live
   or after a failure, and the new expansion lacks it; for a rollback or destroy, it is a tombstone of the reused graph.
   */
  lemma SelectorResolvesIff(events: seq<Event>, next: Event, matches: seq<Coordinate>)
    requires AllPromised([], events) && Promised(Run([], events), next) && Compiled(Run([], events), next).Some?
    requires SubKnown(Compiled(Run([], events), next).value, Selector(matches))
    ensures var h := Run([], events); var g := Compiled(h, next).value;
            (forall k :: 0 <= k < |matches| ==> Emitted(g, matches[k])) <==> (forall k :: 0 <= k < |matches| ==> !Removed(h, next, matches[k]))
  {
    RunsStayLinked([], events);
    hide AllLinked, Run, Compiled, Promised, Removed;
    var h := Run([], events);
    var g := Compiled(h, next).value;
    forall k | 0 <= k < |matches| ensures Emitted(g, matches[k]) <==> !Removed(h, next, matches[k]) { TombstoneIffRemoved(h, next, matches[k]); }
  }

  /** A tombstone still consumes what the removed node consumed. */
  lemma TombstoneStillConsumes(h: History, e: Event, t: Coordinate)
    requires h != [] && AllLinked(h) && Promised(h, e) && e.Deploy? && e.providers == [] && Removed(h, e, t) && t.kind != WORKLOAD
    ensures Targets(Compiled(h, e).value, t) == Targets(Last(h).graph, t)
  {
    assert Linked(Last(h).graph);
    TombstonedEdges(e.expanded, Last(h).graph, Last(h).failed, t);
    hide Tombstoned;
  }

  /**
   The code renders a tombstone match: t used c, and a deploy without t follows.  In the compiled graph t is a tombstone and still a
   consumer of the live c; a selector of c's consumers resolves without error and without an edge, but the reference names no block.
   */
  lemma SelectorMayNameTombstone(t: Coordinate, c: Coordinate, n: Node)
    requires t != c && t.kind != WORKLOAD && c.kind != WORKLOAD && n.config.Some? && !Deleted(n)
    ensures var both, one := Graph(map[t := n, c := n], map[t := map[Named("c") := c]]), Graph(map[c := n], map[]);
            var h, next := Run([], [Deploy(both, [], false)]), Deploy(one, [], false);
            && AllPromised([], [Deploy(both, [], false)]) && Promised(h, next) && Compiled(h, next).Some?
            && var g := Compiled(h, next).value;
            && Emitted(g, c) && c in Targets(g, t) && SubKnown(g, Selector([t])) && Resolve(g, c, [Selector([t])]) == Some(g) && !Emitted(g, t)
  {
    var both, one := Graph(map[t := n, c := n], map[t := map[Named("c") := c]]), Graph(map[c := n], map[]);
    var first, next := Deploy(both, [], false), Deploy(one, [], false);
    PairIsFresh(t, c, n);
    assert [first][1..] == [];
    var h := Run([], [first]);
    assert h == Run(Step([], first), []) == [Deployed(both, false)];
    assert AllPromised([], [first]) by { assert Promised([], first) && AllPromised(Step([], first), []); }
    hide Run, AllPromised, Fresh, Linked;
    var g := Tombstoned(one, both, false);
    assert Compiled(h, next) == Some(g);
    TombstonedIs(one, both, false, t);
    TombstonedIs(one, both, false, c);
    TombstonedEdges(one, both, false, t);
    assert EdgesOf(both, t)[Named("c")] == c;
    SkipsTombstone(g, c, t);
  }

  lemma PairIsFresh(t: Coordinate, c: Coordinate, n: Node)
    requires t != c && t.kind != WORKLOAD && c.kind != WORKLOAD && n.config.Some? && !Deleted(n)
    ensures Fresh(Graph(map[t := n, c := n], map[t := map[Named("c") := c]])) && Fresh(Graph(map[c := n], map[]))
  {
  }

  lemma SkipsTombstone(g: Graph, c: Coordinate, t: Coordinate)
    requires IsTombstone(g, t)
    ensures Resolve(g, c, [Selector([t])]) == Some(g)
  {
    assert AddEdges(g, c, [t]) == AddEdges(g, c, []) == g;
    assert [Selector([t])][1..] == [];
    assert Resolve(g, c, [Selector([t])]) == Resolve(g, c, []) == Some(g);
  }

  // ---------------------------------------------------------------- the graph after compilation

  /** What the placeholders of a node's inputs, params and outputs refer to, less the tombstones of selectors. */
  function WantedBy(g: Graph, inputs: seq<(Coordinate, seq<Sub>)>, c: Coordinate): set<Coordinate>
    decreases |inputs|
  {
    if inputs == [] then {} else (if inputs[0].0 == c then AllWanted(g, inputs[0].1) else {}) + WantedBy(g, inputs[1..], c)
  }

  lemma {:induction false} WantedStays(g: Graph, g': Graph, inputs: seq<(Coordinate, seq<Sub>)>, c: Coordinate)
    requires g'.nodes == g.nodes
    ensures WantedBy(g', inputs, c) == WantedBy(g, inputs, c)
    decreases |inputs|
  {
    if inputs != [] {
      AllWantedStays(g, g', inputs[0].1);
      WantedStays(g, g', inputs[1..], c);
    }
  }

  lemma {:induction false} MappedTargets(g: Graph, inputs: seq<(Coordinate, seq<Sub>)>, c: Coordinate)
    requires Linked(g) && ProvidersKnown(g, inputs) && MapProviders(g, inputs).Some?
    ensures Targets(MapProviders(g, inputs).value, c) == Targets(g, c) + WantedBy(g, inputs, c)
    decreases |inputs|
  {
    hide Linked, Known, Resolve, AllWanted;
    if inputs != [] {
      var (d, subs) := inputs[0];
      ResolveLinks(g, d, subs);
      var next, rest := Resolve(g, d, subs).value, inputs[1..];
      forall k | 0 <= k < |rest| ensures rest[k].0 in next.nodes && Known(next, rest[k].1) {
        assert rest[k] == inputs[k + 1];
        KnownStays(g, next, rest[k].1);
      }
      MappedTargets(next, rest, c);
      WantedStays(g, next, rest, c);
    }
  }

  /**
   The stored graph is serialized before the Terraform is built; building it resolves the placeholders of inputs, params and outputs on
   the same graph, and that one is stamped.  Its targets are the stored graph's and, node by node, exactly what those placeholders add.
   */
  lemma StampedGraphAddsInputs(events: seq<Event>, next: Event, inputs: seq<(Coordinate, seq<Sub>)>, c: Coordinate)
    requires AllPromised([], events) && Promised(Run([], events), next) && Compiled(Run([], events), next).Some?
    requires var stored := Compiled(Run([], events), next).value; ProvidersKnown(stored, inputs) && MapProviders(stored, inputs).Some?
    ensures var stored := Compiled(Run([], events), next).value; var stamped := MapProviders(stored, inputs).value;
            Linked(stamped) && stamped.nodes == stored.nodes && Targets(stamped, c) == Targets(stored, c) + WantedBy(stored, inputs, c)
  {
    RunsStayLinked([], events);
    CompiledLinks(Run([], events), next);
    hide Linked, Run, Compiled, Promised, ProvidersKnown;
    var stored := Compiled(Run([], events), next).value;
    MapProvidersLinks(stored, inputs);
    MappedTargets(stored, inputs, c);
  }

  /** They differ: an input of a refers to b, the stored graph has no such edge, and so neither has a's tombstone after a deploy without a. */
  lemma StoredGraphLacksInputEdges(a: Coordinate, b: Coordinate, n: Node)
    requires a != b && a.kind != WORKLOAD && b.kind != WORKLOAD && n.config.Some? && !Deleted(n)
    ensures var both, one := Graph(map[a := n, b := n], map[]), Graph(map[b := n], map[]);
            var h, next := Run([], [Deploy(both, [], false)]), Deploy(one, [], false);
            && h == [Deployed(both, false)] && MapProviders(both, [(a, [Resource(b)])]).Some?
            && Targets(MapProviders(both, [(a, [Resource(b)])]).value, a) == {b} && Targets(both, a) == {}
            && Compiled(h, next).Some? && IsTombstone(Compiled(h, next).value, a) && Targets(Compiled(h, next).value, a) == {}
  {
    var both, one := Graph(map[a := n, b := n], map[]), Graph(map[b := n], map[]);
    var first, next := Deploy(both, [], false), Deploy(one, [], false);
    assert Fresh(both) && Fresh(one);
    assert [first][1..] == [];
    var h := Run([], [first]);
    assert h == Run(Step([], first), []) == [Deployed(both, false)];
    TombstonedIs(one, both, false, a);
    TombstonedEdges(one, both, false, a);
    assert Compiled(h, next) == Some(Tombstoned(one, both, false));
    InputAdds(both, a, b);
  }

  lemma InputAdds(g: Graph, a: Coordinate, b: Coordinate)
    requires IsLive(g, b) && EdgesOf(g, a) == map[]
    ensures var stamped := MapProviders(g, [(a, [Resource(b)])]); stamped.Some? && Targets(stamped.value, a) == {b}
  {
    assert [Resource(b)][1..] == [] && [(a, [Resource(b)])][1..] == [];
    var g' := AddEdge(g, a, b);
    assert Resolve(g, a, [Resource(b)]) == Resolve(g', a, []) == Some(g');
    assert MapProviders(g, [(a, [Resource(b)])]) == MapProviders(g', []) == Some(g');
    assert EdgesOf(g', a) == map[Anonymous(b) := b];
    assert EdgesOf(g', a)[Anonymous(b)] == b;
  }

  // ---------------------------------------------------------------- dependencies and provider references

  /** A resource placeholder among the inputs of c names t. */
  ghost predicate Refers(inputs: seq<(Coordinate, seq<Sub>)>, c: Coordinate, t: Coordinate) {
    exists k, j :: 0 <= k < |inputs| && 0 <= j < |inputs[k].1| && inputs[k].0 == c && inputs[k].1[j] == Resource(t)
  }

  /** The distance matrix has the edges of the graph before provider mapping and those of the resource placeholders in params; those of the mapped graph are allowed too. */
  ghost predicate Adjacent(base: Graph, stored: Graph, params: seq<(Coordinate, seq<Sub>)>, c: Coordinate, t: Coordinate) {
    t in Targets(base, c) || t in Targets(stored, c) || Refers(params, c, t)
  }

  lemma {:induction false} ReferredIsWanted(g: Graph, inputs: seq<(Coordinate, seq<Sub>)>, k: nat, j: nat)
    requires k < |inputs| && j < |inputs[k].1| && inputs[k].1[j].Resource?
    ensures inputs[k].1[j].target in WantedBy(g, inputs, inputs[k].0)
    decreases k
  {
    if k == 0 { AllWantedHas(g, inputs[0].1, j); }
    else {
      assert inputs[1..][k - 1] == inputs[k];
      ReferredIsWanted(g, inputs[1..], k - 1, j);
    }
  }

  lemma AdjacentIsTarget(base: Graph, providers: seq<(Coordinate, seq<Sub>)>, inputs: seq<(Coordinate, seq<Sub>)>, c: Coordinate, t: Coordinate)
    requires Linked(base) && ProvidersKnown(base, providers) && MapProviders(base, providers).Some?
    requires var stored := MapProviders(base, providers).value; ProvidersKnown(stored, inputs) && MapProviders(stored, inputs).Some?
    requires Adjacent(base, MapProviders(base, providers).value, inputs, c, t)
    ensures t in Targets(MapProviders(MapProviders(base, providers).value, inputs).value, c)
  {
    hide Linked, ProvidersKnown, Targets;
    var stored := MapProviders(base, providers).value;
    MapProvidersLinks(base, providers);
    MappedTargets(base, providers, c);
    MappedTargets(stored, inputs, c);
    if Refers(inputs, c, t) {
      var k, j :| 0 <= k < |inputs| && 0 <= j < |inputs[k].1| && inputs[k].0 == c && inputs[k].1[j] == Resource(t);
      ReferredIsWanted(stored, inputs, k, j);
    }
  }

  /**
   Over any run, in whatever is compiled without error, every node that a live node reaches in the distance matrix is emitted: a selector
   of dependencies never names a tombstone. inputs are the placeholders of all params and inputs that the compilation resolves.
   */
  lemma DependenciesResolve(events: seq<Event>, next: Event, inputs: seq<(Coordinate, seq<Sub>)>, path: seq<Coordinate>, k: nat)
    requires AllPromised([], events) && Promised(Run([], events), next) && Compiled(Run([], events), next).Some?
    requires var stored := Compiled(Run([], events), next).value; ProvidersKnown(stored, inputs) && MapProviders(stored, inputs).Some?
    requires forall i :: 0 <= i < |path| - 1 ==> Adjacent(Base(Run([], events), next).value, Compiled(Run([], events), next).value, inputs, path[i], path[i + 1])
    requires 0 < k < |path| && IsLive(Compiled(Run([], events), next).value, path[0])
    ensures Emitted(MapProviders(Compiled(Run([], events), next).value, inputs).value, path[k])
  {
    var h := Run([], events);
    RunsStayLinked([], events);
    BaseIsLinked(h, next);
    CompiledLinks(h, next);
    var base, stored := Base(h, next).value, Compiled(h, next).value;
    assert stored == MapProviders(base, next.providers).value;
    hide Linked, Run, AllLinked, Targets, ProvidersKnown, Compiled;
    MapProvidersLinks(stored, inputs);
    var stamped := MapProviders(stored, inputs).value;
    forall i | 0 <= i < |path| - 1 ensures path[i + 1] in Targets(stamped, path[i]) {
      AdjacentIsTarget(base, next.providers, inputs, path[i], path[i + 1]);
    }
    DependenciesAreEmitted(stamped, path, k);
  }

  lemma BaseIsLinked(h: History, e: Event)
    requires AllLinked(h) && Promised(h, e) && Base(h, e).Some?
    ensures Linked(Base(h, e).value) && ProvidersKnown(Base(h, e).value, e.providers)
  {
    hide Linked, Tombstoned;
    if e.Deploy? {
      FreshLinked(e.expanded);
      if h != [] { TombstonedLinked(e.expanded, h[|h| - 1].graph, h[|h| - 1].failed); }
    }
  }

  lemma {:induction false} ResolvedIsLive(g: Graph, c: Coordinate, subs: seq<Sub>, j: nat)
    requires Resolve(g, c, subs).Some? && j < |subs| && subs[j].Resource?
    ensures !IsTombstone(g, subs[j].target)
    decreases |subs|
  {
    if j > 0 {
      assert subs[1..][j - 1] == subs[j];
      match subs[0]
      case Resource(t) => ResolvedIsLive(AddEdge(g, c, t), c, subs[1..], j - 1);
      case Selector(matches) =>
        AddEdgesNodes(g, c, matches);
        ResolvedIsLive(AddEdges(g, c, matches), c, subs[1..], j - 1);
    }
  }

  lemma {:induction false} AddEdgesNodes(g: Graph, c: Coordinate, matches: seq<Coordinate>)
    ensures AddEdges(g, c, matches).nodes == g.nodes
    decreases |matches|
  {
    if matches != [] { AddEdgesNodes(if IsTombstone(g, matches[0]) then g else AddEdge(g, c, matches[0]), c, matches[1..]); }
  }

  lemma {:induction false} MappedResourcesLive(g: Graph, providers: seq<(Coordinate, seq<Sub>)>, k: nat, j: nat)
    requires Linked(g) && ProvidersKnown(g, providers) && MapProviders(g, providers).Some?
    requires k < |providers| && j < |providers[k].1| && providers[k].1[j].Resource?
    ensures Emitted(g, providers[k].1[j].target)
    decreases k
  {
    hide Linked, Resolve;
    var (c, subs) := providers[0];
    ResolveLinks(g, c, subs);
    var next, rest := Resolve(g, c, subs).value, providers[1..];
    if k == 0 {
      ResolvedIsLive(g, c, subs, j);
      assert SubKnown(g, subs[j]);
    } else {
      assert rest[k - 1] == providers[k];
      forall i | 0 <= i < |rest| ensures rest[i].0 in next.nodes && Known(next, rest[i].1) {
        assert rest[i] == providers[i + 1];
        KnownStays(g, next, rest[i].1);
      }
      MappedResourcesLive(next, rest, k - 1, j);
    }
  }

  /** Over any run, every resource placeholder in a provider block, also of one that is kept for a tombstone, names an emitted block. */
  lemma ProviderReferencesResolve(events: seq<Event>, next: Event, k: nat, j: nat)
    requires AllPromised([], events) && Promised(Run([], events), next) && Compiled(Run([], events), next).Some?
    requires k < |next.providers| && j < |next.providers[k].1| && next.providers[k].1[j].Resource?
    ensures Emitted(Compiled(Run([], events), next).value, next.providers[k].1[j].target)
  {
    var h := Run([], events);
    RunsStayLinked([], events);
    BaseIsLinked(h, next);
    CompiledLinks(h, next);
    hide Linked, Run, AllLinked, MapProviders;
    MappedResourcesLive(Base(h, next).value, next.providers, k, j);
  }
}
