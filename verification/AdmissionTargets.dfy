/** The Module targets an admission attempt announces to Core. */
module AdmissionTargets {
  import opened Basics

  type Uuid = nat

  const NilUuid: Uuid := 0

  datatype DraftTest = DraftTest(wellFormed: bool, moduleId: Uuid, snapshot: Uuid, project: Uuid, environment: Uuid)

  datatype Artifact = Artifact(moduleId: Uuid, version: Uuid, draftTest: Option<DraftTest>)

  datatype Targets = Targets(versions: map<Uuid, Uuid>, draftSnapshots: map<Uuid, Uuid>)

  predicate Acceptable(a: Artifact, project: Uuid, environment: Uuid) {
    && a.moduleId != NilUuid && a.version != NilUuid
    && (a.draftTest.Some? ==>
          var t := a.draftTest.value;
          t.wellFormed && t.moduleId == a.moduleId && t.snapshot == a.version && t.project == project && t.environment == environment)
  }

  /** Every artifact is acceptable, and two artifacts of one Module agree on the Version and on being a Draft test. */
  predicate Coherent(artifacts: seq<Artifact>, project: Uuid, environment: Uuid) {
    && (forall a :: a in artifacts ==> Acceptable(a, project, environment))
    && (forall a, b :: a in artifacts && b in artifacts && a.moduleId == b.moduleId ==>
          a.version == b.version && a.draftTest.Some? == b.draftTest.Some?)
  }

  /** The targets name exactly the artifacts' Modules, each with its one Version. */
  predicate Announces(t: Targets, artifacts: seq<Artifact>) {
    && (forall a :: a in artifacts ==> a.moduleId in t.versions && t.versions[a.moduleId] == a.version)
    && (forall m :: m in t.versions ==> exists a :: a in artifacts && a.moduleId == m)
    && (forall a :: a in artifacts && a.draftTest.Some? ==> a.moduleId in t.draftSnapshots && t.draftSnapshots[a.moduleId] == a.version)
    && (forall m :: m in t.draftSnapshots ==> exists a :: a in artifacts && a.moduleId == m && a.draftTest.Some?)
  }

  /** The next artifact fits the targets collected so far. */
  predicate Fits(t: Targets, a: Artifact, project: Uuid, environment: Uuid) {
    && Acceptable(a, project, environment)
    && (a.moduleId in t.versions ==> t.versions[a.moduleId] == a.version && (a.moduleId in t.draftSnapshots) == a.draftTest.Some?)
  }

  function Extended(t: Targets, a: Artifact): Targets {
    Targets(t.versions[a.moduleId := a.version], if a.draftTest.Some? then t.draftSnapshots[a.moduleId := a.version] else t.draftSnapshots)
  }

  lemma FitsExtendsCoherence(prefix: seq<Artifact>, a: Artifact, t: Targets, project: Uuid, environment: Uuid)
    requires Coherent(prefix, project, environment) && Announces(t, prefix)
    ensures Coherent(prefix + [a], project, environment) <==> Fits(t, a, project, environment)
  {
    assert forall b :: b in prefix + [a] <==> b in prefix || b == a;
    if a.moduleId in t.versions {
      var b :| b in prefix && b.moduleId == a.moduleId;
      if a.moduleId in t.draftSnapshots { var c :| c in prefix && c.moduleId == a.moduleId && c.draftTest.Some?; }
    }
  }

  lemma FitsExtendsTargets(prefix: seq<Artifact>, a: Artifact, t: Targets, project: Uuid, environment: Uuid)
    requires Announces(t, prefix) && Fits(t, a, project, environment)
    ensures Announces(Extended(t, a), prefix + [a])
  {
    var t', whole := Extended(t, a), prefix + [a];
    assert forall b :: b in whole <==> b in prefix || b == a;
    forall m | m in t'.versions ensures exists b :: b in whole && b.moduleId == m {
      if m == a.moduleId { assert a in whole; } else { var b :| b in prefix && b.moduleId == m; assert b in whole; }
    }
    forall m | m in t'.draftSnapshots ensures exists b :: b in whole && b.moduleId == m && b.draftTest.Some? {
      if m == a.moduleId && a.draftTest.Some? { assert a in whole; }
      else { var b :| b in prefix && b.moduleId == m && b.draftTest.Some?; assert b in whole; }
    }
    assert a.draftTest.Some? ==> a.moduleId in t'.draftSnapshots;
  }

  lemma {:induction false} PrefixCoherent(artifacts: seq<Artifact>, i: nat, project: Uuid, environment: Uuid)
    requires i <= |artifacts| && Coherent(artifacts, project, environment)
    ensures Coherent(artifacts[..i], project, environment)
  {
    assert forall a :: a in artifacts[..i] ==> a in artifacts;
  }

  /** The loop over the artifacts fails exactly on an incoherent list; a destroy announces nothing but still checks. */
  method CollectModuleTargets(destroy: bool, project: Uuid, environment: Uuid, artifacts: seq<Artifact>) returns (r: Result<Targets>)
    ensures r.Ok? <==> Coherent(artifacts, project, environment)
    ensures r.Err? ==> r.error == Conflict
    ensures r.Ok? ==> if destroy then r.value == Targets(map[], map[]) else Announces(r.value, artifacts)
  {
    hide Coherent, Announces;
    var versions: map<Uuid, Uuid> := map[];
    var drafts: map<Uuid, Uuid> := map[];
    EmptyTargets(project, environment);
    for i := 0 to |artifacts|
      invariant Coherent(artifacts[..i], project, environment)
      invariant Announces(Targets(versions, drafts), artifacts[..i])
    {
      var a := artifacts[i];
      ghost var t := Targets(versions, drafts);
      assert artifacts[..i + 1] == artifacts[..i] + [a];
      FitsExtendsCoherence(artifacts[..i], a, t, project, environment);
      if Coherent(artifacts, project, environment) { PrefixCoherent(artifacts, i + 1, project, environment); }
      if a.moduleId == NilUuid || a.version == NilUuid {
        return Err(Conflict);
      }
      if a.moduleId in versions && versions[a.moduleId] != a.version {
        return Err(Conflict);
      }
      if a.moduleId in versions {
        var wasTest := a.moduleId in drafts;
        if wasTest != a.draftTest.Some? {
          return Err(Conflict);
        }
      }
      versions := versions[a.moduleId := a.version];
      if a.draftTest.Some? {
        var test := a.draftTest.value;
        if !test.wellFormed || test.moduleId != a.moduleId || test.snapshot != a.version || test.project != project || test.environment != environment {
          return Err(Conflict);
        }
        drafts := drafts[a.moduleId := a.version];
      }
      FitsExtendsTargets(artifacts[..i], a, t, project, environment);
    }
    assert artifacts[..|artifacts|] == artifacts;
    if destroy {
      versions, drafts := map[], map[];
    }
    r := Ok(Targets(versions, drafts));
  }

  lemma EmptyTargets(project: Uuid, environment: Uuid)
    ensures Coherent([], project, environment) && Announces(Targets(map[], map[]), [])
  {
  }

  /** What Core is told does not depend on the order or the repetition of the artifacts. */
  lemma TargetsIgnoreOrder(t: Targets, t': Targets, artifacts: seq<Artifact>, artifacts': seq<Artifact>)
    requires forall a :: a in artifacts <==> a in artifacts'
    requires Announces(t, artifacts) && Announces(t', artifacts')
    ensures t == t'
  {
    forall m ensures m in t.versions <==> m in t'.versions {
      if m in t.versions { var a :| a in artifacts && a.moduleId == m; assert a in artifacts'; }
      if m in t'.versions { var a :| a in artifacts' && a.moduleId == m; assert a in artifacts; }
    }
    forall m | m in t.versions ensures t.versions[m] == t'.versions[m] {
      var a :| a in artifacts && a.moduleId == m;
    }
    forall m ensures m in t.draftSnapshots <==> m in t'.draftSnapshots {
      if m in t.draftSnapshots { var a :| a in artifacts && a.moduleId == m && a.draftTest.Some?; assert a in artifacts'; }
      if m in t'.draftSnapshots { var a :| a in artifacts' && a.moduleId == m && a.draftTest.Some?; assert a in artifacts; }
    }
    forall m | m in t.draftSnapshots ensures t.draftSnapshots[m] == t'.draftSnapshots[m] {
      var a :| a in artifacts && a.moduleId == m && a.draftTest.Some?;
    }
    assert t.versions == t'.versions && t.draftSnapshots == t'.draftSnapshots;
  }
}
