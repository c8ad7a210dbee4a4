/**
 Runs of result deliveries: every interleaving of HTTP results, runner events, runner errors,
 force-fails, watchdogs and redeliveries, with crashes between any two transactions.
 */
module ResultRuns {
  import opened Basics
  import opened Results

  type ProcessId = nat

  /** applyRunnerDeploymentResult: two peeks outside any transaction around three possible transactions. */
  datatype Phase = Peek | RetainOrdinaryOne | UpdateOne | PeekAgain | RetainLateOne

  datatype Applier = Applier(envelope: Envelope, message: string, phase: Phase)

  /** A watchdog that read an executing Deployment remembers its revision and metrics. */
  datatype Watcher = Watcher(id: DeploymentId, revision: nat, metrics: nat)

  /** acknowledged: the envelopes whose delivery ended without an error. */
  datatype State = State(db: Db, appliers: map<ProcessId, Applier>, watchers: map<ProcessId, Watcher>, acknowledged: set<Envelope>)

  const Initial := State(
    Db(map[], map[], [], [], [], map[], map[], map[], map[], {}, {}, map[], map[], Operations(map[], map[], map[])),
    map[], map[], {})

  /** What the plugin's admission writes beside the Deployment: its receipt and, for the operation's first forward, the anchor. */
  datatype Admission = Admission(operation: Operation, fence: nat, rollback: bool, forward: Option<DeploymentId>, anchor: Option<Anchor>)

  datatype Step =
    | Create(id: DeploymentId, environment: Environment, runner: RunnerId, mode: Mode, createdAt: Time, snapshot: bool, recipient: Option<string>, admission: Option<Admission>)
    | StoreMaterial(operation: Operation, material: string)
    | Attempt(id: DeploymentId, time: Time)
    | Reserve(id: DeploymentId)
    | HttpResult(id: DeploymentId, body: Body, message: string)
    | PlainEvent(id: DeploymentId, event: EventId, runner: RunnerId, body: Body, message: string)
    | RunnerError(id: DeploymentId, event: EventId, runner: RunnerId, message: string)
    | ForceFail(id: DeploymentId)
    | Watch(p: ProcessId, id: DeploymentId)
    | WatchdogFailure(p: ProcessId, message: string)
    | Deliver(p: ProcessId, envelope: Envelope, message: string)
    | Go(p: ProcessId)
    | Crash(p: ProcessId)

  function Admitted(o: Operations, id: DeploymentId, environment: Environment, a: Admission): Operations {
    o.(receipts := if id in o.receipts then o.receipts else o.receipts[id := Receipt(a.operation, environment, a.fence, a.rollback, a.forward)],
       anchors := if a.anchor.None? || (a.operation, environment) in o.anchors then o.anchors else o.anchors[(a.operation, environment) := a.anchor.value])
  }

  function Created(db: Db, s: Step): Db
    requires s.Create?
  {
    db.(deployments := db.deployments[s.id := Deployment(s.environment, s.runner, s.mode, s.createdAt, s.snapshot, s.recipient, Executing, false, "", None, 0, 1)],
        operations := if s.admission.Some? then Admitted(db.operations, s.id, s.environment, s.admission.value) else db.operations,
        budgets := db.budgets[s.id := Budget(None, 1)],
        leases := if s.mode == Mutating && s.environment !in db.leases then db.leases[s.environment := s.id] else db.leases,
        heads := if s.mode == Mutating then db.heads[s.environment := s.id] else db.heads)
  }

  predicate HasFailed(db: Db, id: DeploymentId) {
    id in db.deployments && db.deployments[id].completed && db.deployments[id].status == Failed
  }

  function Goto(s: State, p: ProcessId, phase: Phase): State
    requires p in s.appliers
  {
    s.(appliers := s.appliers[p := s.appliers[p].(phase := phase)])
  }

  function Finish(s: State, p: ProcessId, db: Db, reply: Reply): State
    requires p in s.appliers
  {
    s.(db := db, appliers := s.appliers - {p},
       acknowledged := if reply == Accepted then s.acknowledged + {s.appliers[p].envelope} else s.acknowledged)
  }

  function NextStep(s: State, p: ProcessId): State
    requires p in s.appliers
  {
    var a := s.appliers[p];
    var e := a.envelope;
    match a.phase
    case Peek =>
      if e.deployment !in s.db.deployments then Finish(s, p, s.db, TargetInvalid)
      else if HasFailed(s.db, e.deployment) && s.db.deployments[e.deployment].mode != Observation then Goto(s, p, RetainOrdinaryOne)
      else Goto(s, p, UpdateOne)
    case RetainOrdinaryOne =>
      var r := RetainOrdinary(s.db, e);
      if r.1.Handled? then Finish(s, p, r.0, r.1.reply) else Goto(s, p, RetainLateOne)
    case UpdateOne =>
      var r := CommonUpdate(s.db, ResultUpdate(e.deployment, e.body, a.message, Some(Event(e.event, e.runner, ResultEvent))));
      if r.1 == TargetInvalid then Goto(s, p, PeekAgain) else Finish(s, p, r.0, r.1)
    case PeekAgain =>
      if HasFailed(s.db, e.deployment) then Goto(s, p, RetainLateOne) else Finish(s, p, s.db, TargetInvalid)
    case RetainLateOne =>
      var r := RetainLate(s.db, e);
      Finish(s, p, r.0, r.1)
  }

  function Next(s: State, step: Step): State {
    match step
    case Create(id, _, _, _, _, _, _, _) => if id in s.db.deployments then s else s.(db := Created(s.db, step))
    case StoreMaterial(operation, material) =>
      if operation in s.db.operations.materials then s
      else s.(db := s.db.(operations := s.db.operations.(materials := s.db.operations.materials[operation := material])))
    case Attempt(id, time) =>
      if id !in s.db.deployments || s.db.deployments[id].status != Executing || id !in s.db.budgets || s.db.budgets[id].firstAttempt.Some? then s
      else s.(db := s.db.(budgets := s.db.budgets[id := Budget(Some(time), s.db.deployments[id].revision)]))
    case Reserve(id) =>
      if id !in s.db.deployments || s.db.deployments[id].status != Executing then s
      else s.(db := s.db.(reserved := s.db.reserved + {id}))
    case HttpResult(id, body, message) => s.(db := CommonUpdate(s.db, ResultUpdate(id, body, message, None)).0)
    case PlainEvent(id, event, runner, body, message) =>
      s.(db := CommonUpdate(s.db, ResultUpdate(id, body, message, Some(Event(event, runner, ResultEvent)))).0)
    case RunnerError(id, event, runner, message) =>
      s.(db := CommonUpdate(s.db, FailureUpdate(id, message, Some(Event(event, runner, ErrorEvent)))).0)
    case ForceFail(id) =>
      s.(db := CommonUpdate(s.db, FailureUpdate(id, "deployment was manually failed by an operator", None)).0)
    case Watch(p, id) =>
      if id !in s.db.deployments || s.db.deployments[id].status != Executing then s
      else s.(watchers := s.watchers[p := Watcher(id, s.db.deployments[id].revision, s.db.deployments[id].metrics)])
    case WatchdogFailure(p, message) =>
      if p !in s.watchers then s
      else
        var w := s.watchers[p];
        s.(db := WatchdogFails(s.db, w.id, w.revision, message, w.metrics), watchers := s.watchers - {p})
    case Deliver(p, envelope, message) => if p in s.appliers then s else s.(appliers := s.appliers[p := Applier(envelope, message, Peek)])
    case Go(p) => if p in s.appliers then NextStep(s, p) else s
    case Crash(p) => s.(appliers := s.appliers - {p}, watchers := s.watchers - {p})
  }

  function Run(s: State, steps: seq<Step>): State
    decreases |steps|
  {
    if steps == [] then s else Run(Next(s, steps[0]), steps[1..])
  }

  function After(steps: seq<Step>): State {
    Run(Initial, steps)
  }

  // ---------------------------------------------------------------- invariant

  ghost predicate Inv(s: State) {
    && Consistent(s.db)
    && (forall p :: p in s.watchers ==> s.watchers[p].revision == 1)
    && (forall id :: id in s.db.late ==> s.db.late[id].deployment == id && LateOk(s.db, s.db.late[id]))
  }

  /** Whatever late result is new is one that the guards let through. */
  ghost predicate LateIsNew(db: Db, db': Db) {
    forall id :: id in db'.late ==> id in db.late || (db'.late[id].deployment == id && LateOk(db', db'.late[id]))
  }

  /** The tables moved on. */
  lemma TablesMove(s: State, s': State)
    requires Inv(s) && Consistent(s'.db) && Keeps(s.db, s'.db) && LateIsNew(s.db, s'.db)
    requires forall p :: p in s'.watchers ==> p in s.watchers && s'.watchers[p] == s.watchers[p]
    ensures Inv(s')
  {
    hide Consistent, LateOk;
    forall id | id in s'.db.late ensures s'.db.late[id].deployment == id && LateOk(s'.db, s'.db.late[id]) {
      if id in s.db.late { LateOkStays(s.db, s'.db, s.db.late[id]); }
    }
  }

  lemma CreatedKeeps(db: Db, step: Step)
    requires Consistent(db) && step.Create? && step.id !in db.deployments
    ensures Consistent(Created(db, step)) && Keeps(db, Created(db, step)) && Created(db, step).late == db.late
  {
    var db' := Created(db, step);
    forall id | id in db'.deployments ensures RowOk(db', id) {
      if id != step.id { assert RowOk(db, id); }
    }
  }

  lemma ConsistentOf(s: State)
    requires Inv(s)
    ensures Consistent(s.db)
  {
    hide Consistent, LateOk;
  }

  lemma GoKeeps(s: State, p: ProcessId)
    requires Inv(s) && p in s.appliers
    ensures Inv(NextStep(s, p)) && Keeps(s.db, NextStep(s, p).db)
  {
    hide Inv, Consistent, Keeps, CommonUpdate, RetainLate, RetainOrdinary, LateOk;
    var a := s.appliers[p];
    var e := a.envelope;
    KeepsSelf(s.db);
    ConsistentOf(s);
    var s' := NextStep(s, p);
    match a.phase
    case Peek => TablesMove(s, s');
    case PeekAgain => TablesMove(s, s');
    case RetainOrdinaryOne =>
      RetainOrdinaryKeeps(s.db, e);
      TablesMove(s, s');
    case UpdateOne =>
      CommonUpdateKeeps(s.db, ResultUpdate(e.deployment, e.body, a.message, Some(Event(e.event, e.runner, ResultEvent))));
      TablesMove(s, s');
    case RetainLateOne =>
      RetainLateKeeps(s.db, e);
      TablesMove(s, s');
  }

  lemma UpdateKeeps(s: State, u: Update)
    requires Inv(s) && u.status != Executing
    ensures var s' := s.(db := CommonUpdate(s.db, u).0); Inv(s') && Keeps(s.db, s'.db)
  {
    hide Consistent, Keeps, CommonUpdate, LateOk;
    CommonUpdateKeeps(s.db, u);
    TablesMove(s, s.(db := CommonUpdate(s.db, u).0));
  }

  lemma OtherTablesKeep(db: Db, db': Db)
    requires Consistent(db) && db' == db.(budgets := db'.budgets, reserved := db'.reserved, operations := db'.operations)
    requires OperationsGrow(db.operations, db'.operations)
    ensures Consistent(db') && Keeps(db, db')
  {
    SameRowsConsistent(db, db');
  }

  lemma TableStepKeeps(s: State, step: Step)
    requires Inv(s) && (step.Create? || step.StoreMaterial? || step.Attempt? || step.Reserve? || step.Deliver? || step.Crash?)
    ensures Inv(Next(s, step)) && Keeps(s.db, Next(s, step).db)
  {
    hide Consistent, Keeps, Created, LateOk, CommonUpdate, NextStep, WatchdogFails;
    var s' := Next(s, step);
    KeepsSelf(s.db);
    if step.Create? && step.id !in s.db.deployments { CreatedKeeps(s.db, step); }
    if !step.Create? { OtherTablesKeep(s.db, s'.db); }
    TablesMove(s, s');
  }

  lemma WatchdogStepKeeps(s: State, p: ProcessId, message: string)
    requires Inv(s) && p in s.watchers
    ensures var s' := Next(s, WatchdogFailure(p, message)); Inv(s') && Keeps(s.db, s'.db)
  {
    hide Consistent, Keeps, WatchdogFails, LateOk;
    WatchdogKeeps(s.db, s.watchers[p].id, message, s.watchers[p].metrics);
    TablesMove(s, Next(s, WatchdogFailure(p, message)));
  }

  lemma NextKeeps(s: State, step: Step)
    requires Inv(s)
    ensures Inv(Next(s, step)) && Keeps(s.db, Next(s, step).db)
  {
    hide Inv, Keeps, CommonUpdate, NextStep, WatchdogFails, Created;
    KeepsSelf(s.db);
    match step
    case HttpResult(id, body, message) => UpdateKeeps(s, ResultUpdate(id, body, message, None));
    case PlainEvent(id, event, runner, body, message) => UpdateKeeps(s, ResultUpdate(id, body, message, Some(Event(event, runner, ResultEvent))));
    case RunnerError(id, event, runner, message) => UpdateKeeps(s, FailureUpdate(id, message, Some(Event(event, runner, ErrorEvent))));
    case ForceFail(id) => UpdateKeeps(s, FailureUpdate(id, "deployment was manually failed by an operator", None));
    case Watch(p, id) => WatchKeeps(s, p, id);
    case WatchdogFailure(p, message) => if p in s.watchers { WatchdogStepKeeps(s, p, message); }
    case Go(p) => if p in s.appliers { GoKeeps(s, p); }
    case _ => TableStepKeeps(s, step);
  }

  lemma WatchKeeps(s: State, p: ProcessId, id: DeploymentId)
    requires Inv(s)
    ensures Inv(Next(s, Watch(p, id)))
  {
    if id in s.db.deployments { assert RowOk(s.db, id); }
  }

  lemma {:induction false} RunKeeps(s: State, steps: seq<Step>)
    requires Inv(s)
    ensures Inv(Run(s, steps)) && Keeps(s.db, Run(s, steps).db)
    decreases |steps|
  {
    hide Inv, Keeps, Next;
    KeepsSelf(s.db);
    if steps != [] {
      NextKeeps(s, steps[0]);
      var s1 := Next(s, steps[0]);
      RunKeeps(s1, steps[1..]);
      KeepsOn(s.db, s1.db, Run(s1, steps[1..]).db);
    }
  }

  lemma Reachable(steps: seq<Step>)
    ensures Inv(After(steps))
  {
    RunKeeps(Initial, steps);
  }

  // ---------------------------------------------------------------- theorems

  /** Terminal results are final: no later result, duplicate, runner error, watchdog or operator changes a completed Deployment. */
  lemma ResultIsFinal(before: seq<Step>, more: seq<Step>, id: DeploymentId)
    requires var m := After(before).db.deployments; id in m && m[id].completed
    ensures var m, m' := After(before).db.deployments, Run(After(before), more).db.deployments; id in m' && m'[id] == m[id]
  {
    Reachable(before);
    RunKeeps(After(before), more);
    hide Inv, Run;
  }

  /** Effects happen once: history and the completion event are written exactly once if the Deployment is completed and never otherwise; adoption only for a succeeded mutating one. */
  lemma EffectsHappenOnce(steps: seq<Step>, id: DeploymentId)
    requires id in After(steps).db.deployments
    ensures var db := After(steps).db; var d := db.deployments[id];
            && multiset(db.history)[id] == (if d.completed then 1 else 0)
            && multiset(db.completions)[id] == (if d.completed then 1 else 0)
            && multiset(db.adoptions)[id] == (if d.status == Succeeded && d.mode == Mutating then 1 else 0)
            && (d.completed <==> d.status != Executing)
  {
    Reachable(steps);
    hide Run;
    assert RowOk(After(steps).db, id);
  }

  /** The first retained late result, stop receipt and inbox row of a Deployment stay for good. */
  lemma FirstLateResultWins(before: seq<Step>, more: seq<Step>, id: DeploymentId)
    ensures var db, db' := After(before).db, Run(After(before), more).db;
            && (id in db.late ==> id in db'.late && db'.late[id] == db.late[id])
            && (id in db.stopReceipts ==> id in db'.stopReceipts && db'.stopReceipts[id] == db.stopReceipts[id])
            && (forall e :: e in db.inbox ==> e in db'.inbox && db'.inbox[e] == db.inbox[e])
  {
    Reachable(before);
    RunKeeps(After(before), more);
    hide Inv, Run;
  }

  /**
   Over all runs a retained late result is the gateway's own event for a failed attempt of that Runner, whose operation receipt, anchor and
   succeeded base are all there, and whose outputs, if any, are ciphertext for the operation's own recipient.
   */
  lemma LateResultIsOwned(steps: seq<Step>, id: DeploymentId)
    requires id in After(steps).db.late
    ensures var db := After(steps).db; var e := db.late[id]; e.deployment == id && LateOk(db, e)
  {
    Reachable(steps);
    hide Run, LateOk;
  }

  lemma RunSteps(s: State, steps: seq<Step>, step: Step)
    ensures Run(s, steps + [step]) == Next(Run(s, steps), step)
    decreases |steps|
  {
    if steps == [] {
      assert steps + [step] == [step] && [step][1..] == [];
      assert Run(s, [step]) == Run(Next(s, step), []);
    } else {
      assert (steps + [step])[1..] == steps[1..] + [step];
      RunSteps(Next(s, steps[0]), steps[1..], step);
    }
  }

  predicate Failing(s: State, p: ProcessId) {
    && p in s.appliers && s.appliers[p].phase == UpdateOne
    && var e := s.appliers[p].envelope;
    && HasFailed(s.db, e.deployment) && s.db.deployments[e.deployment].mode != Observation
    && s.db.deployments[e.deployment].runner == e.runner && e.event !in s.db.inbox && e.body.observation.None?
  }

  /**
   The failure of a plugin's Deployment lands between the first peek and the update: the update is rejected without an inbox row, the
   second peek sees the failure, and the result goes to the late path with the tables untouched. If another delivery was retained meanwhile,
   an exact replay is accepted, any other payload is refused, and nothing changes. Else it is accepted exactly if the guards allow it, and then
   exactly this envelope is kept: no Deployment row changes and only the Deployment's own lease goes.
   */
  lemma FailureBetweenPeekAndUpdate(steps: seq<Step>, p: ProcessId)
    requires var s := After(steps); Failing(s, p) && var id := s.appliers[p].envelope.deployment;
             id in s.db.operations.receipts
    ensures var s := After(steps); Run(s, [Go(p), Go(p)]) == Goto(s, p, RetainLateOne)
    ensures var s := After(steps); var s' := Run(s, [Go(p), Go(p), Go(p)]); var e := s.appliers[p].envelope;
            && p !in s'.appliers
            && (if e.deployment in s.db.late then
                  s'.db == s.db && s'.acknowledged == if s.db.late[e.deployment] == e then s.acknowledged + {e} else s.acknowledged
                else if e.event == ResultOf(e.deployment) && LateAllowed(s.db, e) then
                  && s'.acknowledged == s.acknowledged + {e}
                  && s'.db.late == s.db.late[e.deployment := e] && SameRows(s.db, s'.db) && s'.db.inbox == s.db.inbox
                  && s'.db.leases == (map environment | environment in s.db.leases && s.db.leases[environment] != e.deployment :: s.db.leases[environment])
                else s'.db == s.db && s'.acknowledged == s.acknowledged)
  {
    hide Run, LateAllowed, ProveStop, DropLease, CommonUpdate, RetainOrdinary, Owned, OutputsOwned;
    var s := After(steps);
    var e := s.appliers[p].envelope;
    if e.deployment in s.db.late { LateResultIsOwned(steps, e.deployment); }
    var s1 := Goto(s, p, PeekAgain);
    UpdateRejects(s, p);
    var s2 := Goto(s1, p, RetainLateOne);
    assert Next(s1, Go(p)) == s2;
    TwoSteps(s, Go(p), Go(p));
    RunSteps(s, [Go(p), Go(p)], Go(p));
    assert [Go(p), Go(p)] + [Go(p)] == [Go(p), Go(p), Go(p)];
    if e.deployment !in s.db.late {
      RetainedOnly(s.db, e);
      RetainedLeases(s.db, e);
    }
  }

  lemma RetainedLeases(db: Db, e: Envelope)
    ensures var db' := DropLease(ProveStop(db.(late := db.late[e.deployment := e]), e.deployment), e.deployment);
            db'.leases == map environment | environment in db.leases && db.leases[environment] != e.deployment :: db.leases[environment]
  {
    ProveStopOnly(db.(late := db.late[e.deployment := e]), e.deployment);
    hide ProveStop;
  }

  lemma UpdateRejects(s: State, p: ProcessId)
    requires Failing(s, p) && s.appliers[p].envelope.deployment in s.db.operations.receipts
    ensures Next(s, Go(p)) == Goto(s, p, PeekAgain)
  {
    hide ProveStop, Complete, ObservationCompletion;
  }

  /**
   The same race for an ordinary Deployment that holds Runner capacity: the update itself accepts the result, keeps its body as the stop
   receipt, and leaves every Deployment row, history record and lease as it was.
   */
  lemma OrdinaryFailureBetweenPeekAndUpdate(steps: seq<Step>, p: ProcessId)
    requires var s := After(steps); Failing(s, p) && var id := s.appliers[p].envelope.deployment;
             && id !in s.db.operations.receipts && id in s.db.reserved && id !in s.db.stopReceipts
             && id in s.db.budgets && s.db.budgets[id].firstAttempt.Some? && s.db.budgets[id].revision + 1 == s.db.deployments[id].revision
    ensures var s := After(steps); var s' := Next(s, Go(p)); var e := s.appliers[p].envelope;
            && e in s'.acknowledged && p !in s'.appliers
            && s'.db.stopReceipts == s.db.stopReceipts[e.deployment := e.body]
            && SameRows(s.db, s'.db) && s'.db.leases == s.db.leases && s'.db.late == s.db.late
  {
    var s := After(steps);
    hide Run, Complete, ObservationCompletion;
    var e := s.appliers[p].envelope;
    var noted := s.db.(inbox := s.db.inbox[e.event := InboxRow(e.runner, e.deployment, ResultEvent)]);
    ProveStopOnly(noted.(stopReceipts := noted.stopReceipts[e.deployment := e.body]), e.deployment);
    hide ProveStop;
    assert LateOrdinary(noted, e.deployment, e.body).Kept?;
  }

  lemma TwoSteps(s: State, a: Step, b: Step)
    ensures Run(s, [a, b]) == Next(Next(s, a), b)
  {
    hide Next;
    assert [a, b] == [] + [a] + [b];
    RunSteps(s, [], a);
    RunSteps(s, [] + [a], b);
  }
}
