/**
 Runner results: the transactions that complete a Deployment, and those that retain late results.

 Results arrive over HTTP or as runner events, at least once, duplicated and reordered, next to
 watchdogs, runner errors and operators.  Every transaction locks the Deployment row, so it is one
 atomic function on the tables; a rejected one rolls back.  A digest of a body or an envelope is that
 body or envelope itself: SHA-256 is taken to be free of collisions.
 */
module Results {
  import opened Basics

  type DeploymentId = nat
  type RunnerId = nat
  type Environment = nat
  type Time = nat
  type Operation = nat

  datatype Mode = Mutating | Plan | Observation

  datatype Status = Executing | Succeeded | Failed

  /** snapshot: manifest, graph and configuration are all stored. recipient: whom the Runner encrypts outputs to. */
  datatype Deployment = Deployment(
    environment: Environment, runner: RunnerId, mode: Mode, createdAt: Time, snapshot: bool, recipient: Option<string>,
    status: Status, completed: bool, message: string, outputs: Option<string>, metrics: nat, revision: nat)

  /** Names an event: the gateway's "<deployment>:deployment-result", or any other identifier. */
  datatype EventId = ResultOf(deployment: DeploymentId) | OtherEvent(n: nat)

  datatype EventType = ResultEvent | ErrorEvent

  datatype InboxRow = InboxRow(runner: RunnerId, deployment: DeploymentId, eventType: EventType)

  /** sealed: the outputs are age ciphertext within the retention limit. observation: an observation result is present, and whether it validates. */
  datatype Body = Body(success: bool, outputs: Option<string>, sealed: bool, metadata: nat, metrics: nat, observation: Option<bool>)

  datatype Envelope = Envelope(event: EventId, runner: RunnerId, deployment: DeploymentId, createdAt: Time, command: Option<nat>, body: Body)

  datatype Budget = Budget(firstAttempt: Option<Time>, revision: nat)

  /** A plugin operation's receipt for one Deployment: an admission, or a rollback of the forward it records. */
  datatype Receipt = Receipt(operation: Operation, environment: Environment, fence: nat, rollback: bool, forward: Option<DeploymentId>)

  /** The operation's first forward in the Environment, and the base captured before it. */
  datatype Anchor = Anchor(first: DeploymentId, base: DeploymentId)

  /** What plugin operations keep; materials names the one recipient of each operation's outputs. */
  datatype Operations = Operations(
    receipts: map<DeploymentId, Receipt>, anchors: map<(Operation, Environment), Anchor>, materials: map<Operation, string>)

  datatype Db = Db(
    deployments: map<DeploymentId, Deployment>,
    inbox: map<EventId, InboxRow>,
    history: seq<DeploymentId>,
    completions: seq<DeploymentId>,
    adoptions: seq<DeploymentId>,
    late: map<DeploymentId, Envelope>,
    stopReceipts: map<DeploymentId, Body>,
    observed: map<DeploymentId, Body>,
    budgets: map<DeploymentId, Budget>,
    proven: set<DeploymentId>,
    reserved: set<DeploymentId>,
    leases: map<Environment, DeploymentId>,
    heads: map<Environment, DeploymentId>,
    operations: Operations)

  /** Accepted: committed. The others roll back. */
  datatype Reply = Accepted | TargetInvalid | Refused | Missing | Malformed

  // ---------------------------------------------------------------- helpers of the tables

  /** ReleaseRunnerJob: only on proof of stop, or if dispatch never began. */
  predicate StopProven(db: Db, id: DeploymentId) {
    || id in db.proven
    || (id in db.budgets && db.budgets[id].firstAttempt.None?)
    || (exists e :: e in db.inbox && db.inbox[e].deployment == id && db.inbox[e].eventType == ResultEvent)
    || id in db.late
  }

  function Release(db: Db, id: DeploymentId): Db {
    if StopProven(db, id) then db.(reserved := db.reserved - {id}) else db
  }

  /** RecordDeploymentCompletion */
  function ProveStop(db: Db, id: DeploymentId): Db {
    Release(db.(proven := if id in db.budgets then db.proven + {id} else db.proven), id)
  }

  function DropLease(db: Db, id: DeploymentId): Db {
    db.(leases := map e | e in db.leases && db.leases[e] != id :: db.leases[e])
  }

  /** UpdateDeploymentStatusAndOutputs */
  function Finish(db: Db, id: DeploymentId, status: Status, message: string, outputs: Option<string>, metrics: nat, proof: bool): Db
    requires id in db.deployments
  {
    var d := db.deployments[id].(status := status, completed := true, message := message, outputs := outputs,
                                 metrics := metrics, revision := db.deployments[id].revision + 1);
    var written := db.(deployments := db.deployments[id := d]);
    DropLease(Release(if proof then ProveStop(written, id) else written, id), id)
  }

  function Record(db: Db, id: DeploymentId, adopted: bool): Db {
    db.(history := db.history + [id], completions := db.completions + [id], adoptions := if adopted then db.adoptions + [id] else db.adoptions)
  }

  // ---------------------------------------------------------------- one result

  datatype Event = Event(id: EventId, runner: RunnerId, eventType: EventType)

  /** What a caller of commonUpdateDeploymentResults passes: proven says the body is an authenticated complete Runner result. */
  datatype Update = Update(id: DeploymentId, body: Body, status: Status, message: string, outputs: Option<string>, event: Option<Event>, proven: bool)

  function StatusOf(body: Body): Status {
    if body.success then Succeeded else Failed
  }

  /** deploymentResultUpdateParams */
  function ResultUpdate(id: DeploymentId, body: Body, message: string, event: Option<Event>): Update {
    Update(id, body, StatusOf(body), message, body.outputs, event, true)
  }

  /** ApplyRunnerError and InternalForceFailDeployment: a failure that proves nothing about the Runner. */
  function FailureUpdate(id: DeploymentId, message: string, event: Option<Event>): Update {
    Update(id, Body(false, None, false, 0, 0, None), Failed, message, None, event, false)
  }

  datatype Late = Unhandled | Kept(db: Db) | Clash

  /** RecordLateOrdinaryRunnerCompletion */
  function LateOrdinary(db: Db, id: DeploymentId, body: Body): Late
    requires id in db.deployments
  {
    var d := db.deployments[id];
    if d.mode == Observation || d.status != Failed || !d.completed || id in db.operations.receipts then Unhandled
    else if id in db.stopReceipts then (if db.stopReceipts[id] == body then Kept(db) else Clash)
    else if id !in db.reserved then Unhandled
    else if id !in db.budgets || db.budgets[id].firstAttempt.None? || db.budgets[id].revision + 1 != d.revision then Clash
    else Kept(ProveStop(db.(stopReceipts := db.stopReceipts[id := body]), id))
  }

  /** RecordObservationCompletion: the first completion is kept; Kept(db) with the same db is a replay. */
  function ObservationCompletion(db: Db, id: DeploymentId, body: Body): Late {
    if id in db.observed then (if db.observed[id] == body then Kept(db) else Clash)
    else Kept(ProveStop(db.(observed := db.observed[id := body]), id))
  }

  /** The status, message and outputs that are written: observations keep no outputs and succeed only with a valid, safe result. */
  function Written(d: Deployment, u: Update): (Status, string, Option<string>) {
    if d.mode != Observation then (u.status, u.message, u.outputs)
    else
      var fine := u.status == Succeeded && u.body.outputs.None? && u.body.metadata == 0 && u.body.observation == Some(true);
      (if fine then Succeeded else Failed,
       if fine then "observation completed" else if u.body.success then "observation result unavailable" else "observation failed",
       None)
  }

  function Complete(db: Db, u: Update): Db
    requires u.id in db.deployments
  {
    var d := db.deployments[u.id];
    var w := Written(d, u);
    Record(Finish(db, u.id, w.0, w.1, w.2, u.body.metrics, u.proven && u.event.None?), u.id, d.mode == Mutating && w.0 == Succeeded)
  }

  /** After the inbox: late ordinary completions, observations, and the ordinary completion. */
  function Settle(db: Db, before: Db, u: Update): (Db, Reply)
    requires u.id in db.deployments
  {
    var d := db.deployments[u.id];
    var late := if u.proven && d.mode != Observation && d.completed then LateOrdinary(db, u.id, u.body) else Unhandled;
    var seen := if u.proven && d.mode == Observation then ObservationCompletion(db, u.id, u.body) else Unhandled;
    if late.Clash? || seen.Clash? then (before, Refused)
    else if late.Kept? then (late.db, Accepted)
    else if seen.Kept? && (u.id in db.observed || d.completed) then (seen.db, Accepted)
    else if d.mode != Observation && u.body.observation.Some? then (before, Malformed)
    else if d.completed then (before, if u.event.Some? then TargetInvalid else Refused)
    else (Complete(if seen.Kept? then seen.db else db, u), Accepted)
  }

  /** commonUpdateDeploymentResults as one transaction. */
  function CommonUpdate(db: Db, u: Update): (Db, Reply) {
    if u.id !in db.deployments then (db, if u.event.Some? then TargetInvalid else Missing)
    else if u.event.Some? && db.deployments[u.id].runner != u.event.value.runner then (db, TargetInvalid)
    else if u.event.Some? && u.event.value.id in db.inbox then (db, Accepted)
    else
      var e := u.event;
      var noted := if e.Some? then db.(inbox := db.inbox[e.value.id := InboxRow(e.value.runner, u.id, e.value.eventType)]) else db;
      Settle(noted, db, u)
  }

  // ---------------------------------------------------------------- late results of plugin-dispatched attempts

  /** The Deployment's receipt belongs to an anchored operation whose base succeeded with a complete snapshot in the same Environment. */
  predicate Owned(db: Db, id: DeploymentId) {
    && id in db.deployments && id in db.operations.receipts
    && var r := db.operations.receipts[id]; var environment := db.deployments[id].environment;
    && r.environment == environment && r.fence > 0 && (r.operation, environment) in db.operations.anchors
    && var a := db.operations.anchors[(r.operation, environment)];
    && (if r.rollback then r.forward.Some? else r.forward == Some(id) || (r.forward.None? && a.first == id))
    && a.base in db.deployments
    && var base := db.deployments[a.base];
    && base.environment == environment && base.status == Succeeded && base.completed && base.snapshot
  }

  /** Outputs are kept only as ciphertext for the recipient that the operation's material names. */
  predicate OutputsOwned(db: Db, e: Envelope) {
    && e.deployment in db.deployments && e.deployment in db.operations.receipts
    && var recipient := db.deployments[e.deployment].recipient; var operation := db.operations.receipts[e.deployment].operation;
    && (e.body.outputs.Some? ==> e.body.sealed && recipient.Some? && operation in db.operations.materials && db.operations.materials[operation] == recipient.value)
  }

  /** The guards of retainLateRunnerResult. */
  predicate LateAllowed(db: Db, e: Envelope) {
    && e.deployment in db.deployments
    && var d := db.deployments[e.deployment];
    && d.runner == e.runner && d.status == Failed && d.completed
    && d.environment in db.heads && db.heads[d.environment] == e.deployment
    && d.createdAt <= e.createdAt
    && e.deployment in db.budgets
    && var b := db.budgets[e.deployment];
    && b.firstAttempt.Some? && b.revision + 1 == d.revision && b.firstAttempt.value <= e.createdAt
    && (e.command.Some? ==> e.command.value == b.revision)
    && (d.environment in db.leases ==> db.leases[d.environment] == e.deployment)
    && Owned(db, e.deployment) && OutputsOwned(db, e)
  }

  /** retainLateRunnerResult as one transaction, under the Environment lock. */
  function RetainLate(db: Db, e: Envelope): (Db, Reply) {
    var id := e.deployment;
    if e.event != ResultOf(id) then (db, TargetInvalid)
    else if id in db.late && db.late[id].runner == e.runner && db.late[id].event == e.event then
      (db, if db.late[id] == e then Accepted else TargetInvalid)
    else if e.event in db.inbox && db.inbox[e.event] == InboxRow(e.runner, id, ResultEvent) then (db, Accepted)
    else if !LateAllowed(db, e) then (db, TargetInvalid)
    else if id in db.late then (db, TargetInvalid)
    else (DropLease(ProveStop(db.(late := db.late[id := e]), id), id), Accepted)
  }

  datatype OrdinaryReply = Handled(reply: Reply) | NotHandled

  /** retainLateOrdinaryCapacityCompletion as one transaction. */
  function RetainOrdinary(db: Db, e: Envelope): (Db, OrdinaryReply) {
    var id := e.deployment;
    if id !in db.deployments then (db, Handled(Missing))
    else if db.deployments[id].runner != e.runner then (db, Handled(TargetInvalid))
    else if db.deployments[id].mode != Observation && id !in db.operations.receipts && id in db.reserved
            && !(id in db.budgets && db.budgets[id].firstAttempt.Some? && e.event == ResultOf(id)
                 && db.budgets[id].firstAttempt.value <= e.createdAt
                 && (e.command.Some? ==> e.command.value == db.budgets[id].revision)) then (db, Handled(TargetInvalid))
    else match LateOrdinary(db, id, e.body)
      case Unhandled => (db, NotHandled)
      case Clash => (db, Handled(Refused))
      case Kept(kept) => (kept, Handled(Accepted))
  }

  /** A watchdog completes what it saw, at the revision it saw. */
  function WatchdogFails(db: Db, id: DeploymentId, revision: nat, message: string, metrics: nat): Db {
    if id !in db.deployments || db.deployments[id].revision != revision then db
    else Record(Finish(db, id, Failed, message, None, metrics, false), id, false)
  }

  // ---------------------------------------------------------------- the transactions as code

  class ResultStore {
    var db: Db

    /** Works on a copy of the tables; only a commit makes it the tables. */
    method ApplyUpdate(u: Update) returns (reply: Reply)
      modifies this
      ensures (db, reply) == CommonUpdate(old(db), u)
    {
      var tx := db;
      if u.id !in tx.deployments {
        return if u.event.Some? then TargetInvalid else Missing;
      }
      var d := tx.deployments[u.id];
      if u.event.Some? {
        var event := u.event.value;
        if d.runner != event.runner { return TargetInvalid; }
        if event.id in tx.inbox {
          db := tx;
          return Accepted;
        }
        tx := tx.(inbox := tx.inbox[event.id := InboxRow(event.runner, u.id, event.eventType)]);
      }
      if u.proven && d.mode != Observation && d.completed {
        var late := LateOrdinary(tx, u.id, u.body);
        if late.Clash? { return Refused; }
        if late.Kept? {
          db := late.db;
          return Accepted;
        }
      }
      if d.mode == Observation {
        if u.proven {
          var replayed := u.id in tx.observed;
          var seen := ObservationCompletion(tx, u.id, u.body);
          if seen.Clash? { return Refused; }
          tx := seen.db;
          if replayed || d.completed {
            db := tx;
            return Accepted;
          }
        }
      } else if u.body.observation.Some? {
        return Malformed;
      }
      if d.completed {
        return if u.event.Some? then TargetInvalid else Refused;
      }
      var written := Written(d, u);
      tx := Finish(tx, u.id, written.0, written.1, written.2, u.body.metrics, u.proven && u.event.None?);
      tx := tx.(history := tx.history + [u.id]);
      tx := tx.(completions := tx.completions + [u.id]);
      if d.mode == Mutating && written.0 == Succeeded {
        tx := tx.(adoptions := tx.adoptions + [u.id]);
      }
      db := tx;
      return Accepted;
    }

    method Retain(e: Envelope) returns (reply: Reply)
      modifies this
      ensures (db, reply) == RetainLate(old(db), e)
    {
      var tx := db;
      var id := e.deployment;
      if e.event != ResultOf(id) { return TargetInvalid; }
      if id in tx.late && tx.late[id].runner == e.runner && tx.late[id].event == e.event {
        return if tx.late[id] == e then Accepted else TargetInvalid;
      }
      if e.event in tx.inbox && tx.inbox[e.event] == InboxRow(e.runner, id, ResultEvent) { return Accepted; }
      if !LateAllowed(tx, e) { return TargetInvalid; }
      if id in tx.late { return TargetInvalid; }
      tx := tx.(late := tx.late[id := e]);
      tx := ProveStop(tx, id);
      tx := DropLease(tx, id);
      db := tx;
      return Accepted;
    }
  }

  // ---------------------------------------------------------------- what every transaction keeps

  /** A Deployment is completed exactly once, and its history, completion event and adoption event are written exactly then. */
  ghost predicate Consistent(db: Db) {
    && (forall id :: id in db.deployments ==> RowOk(db, id))
    && (forall id :: id in db.history || id in db.completions || id in db.adoptions ==> id in db.deployments)
  }

  predicate RowOk(db: Db, id: DeploymentId)
    requires id in db.deployments
  {
    var d := db.deployments[id];
    && d.completed == (d.status != Executing)
    && d.revision == (if d.completed then 2 else 1)
    && multiset(db.history)[id] == (if d.completed then 1 else 0)
    && multiset(db.completions)[id] == (if d.completed then 1 else 0)
    && multiset(db.adoptions)[id] == (if d.status == Succeeded && d.mode == Mutating then 1 else 0)
  }

  ghost predicate Grows<K(!new), V>(m: map<K, V>, m': map<K, V>) {
    forall k :: k in m ==> k in m' && m'[k] == m[k]
  }

  ghost predicate OperationsGrow(o: Operations, o': Operations) {
    Grows(o.receipts, o'.receipts) && Grows(o.anchors, o'.anchors) && Grows(o.materials, o'.materials)
  }

  /** Completed Deployments are never written again, and inbox rows, retained results and receipts never change or go. */
  ghost predicate Keeps(db: Db, db': Db) {
    && (forall id :: id in db.deployments ==> id in db'.deployments && (db.deployments[id].completed ==> db'.deployments[id] == db.deployments[id]))
    && Grows(db.inbox, db'.inbox) && Grows(db.late, db'.late)
    && Grows(db.stopReceipts, db'.stopReceipts) && Grows(db.observed, db'.observed)
    && OperationsGrow(db.operations, db'.operations)
    && db.proven <= db'.proven
  }

  /** What a retained late result says: a failed attempt of the operation that owns the Deployment, under the gateway's own event. */
  predicate LateOk(db: Db, e: Envelope) {
    && e.event == ResultOf(e.deployment) && Owned(db, e.deployment) && OutputsOwned(db, e)
    && var d := db.deployments[e.deployment];
    && d.runner == e.runner && d.status == Failed && d.completed
  }

  lemma LateOkStays(db: Db, db': Db, e: Envelope)
    requires LateOk(db, e) && Keeps(db, db')
    ensures LateOk(db', e)
  {
    var d, r := db.deployments[e.deployment], db.operations.receipts[e.deployment];
    var a := db.operations.anchors[(r.operation, d.environment)];
    assert db'.deployments[a.base] == db.deployments[a.base] && db'.deployments[e.deployment] == d;
  }

  predicate Shows(d: Deployment, body: Body) {
    d.completed && d.status == StatusOf(body) && d.outputs == body.outputs && d.metrics == body.metrics
  }

  /** This body is what the Deployment's row shows, or what its stop receipt or observation receipt keeps. */
  predicate Applied(db: Db, id: DeploymentId, body: Body) {
    || (id in db.deployments && db.deployments[id].mode != Observation && Shows(db.deployments[id], body))
    || (id in db.stopReceipts && db.stopReceipts[id] == body)
    || (id in db.observed && db.observed[id] == body)
  }

  lemma AppliedStays(db: Db, db': Db, id: DeploymentId, body: Body)
    requires Applied(db, id, body) && Keeps(db, db')
    ensures Applied(db', id, body)
  {
  }

  /** The tables that a proof of stop does not touch. */
  predicate SameRows(db: Db, db': Db) {
    db'.deployments == db.deployments && db'.history == db.history && db'.completions == db.completions && db'.adoptions == db.adoptions
  }

  lemma SameRowsConsistent(db: Db, db': Db)
    requires Consistent(db) && SameRows(db, db')
    ensures Consistent(db')
  {
    forall id | id in db'.deployments ensures RowOk(db', id) { assert RowOk(db, id); }
  }

  lemma ProveStopOnly(db: Db, id: DeploymentId)
    ensures var db' := ProveStop(db, id);
            && db' == db.(proven := db'.proven, reserved := db'.reserved)
            && db.proven <= db'.proven
  {
  }

  function Finished(d: Deployment, status: Status, message: string, outputs: Option<string>, metrics: nat): Deployment {
    d.(status := status, completed := true, message := message, outputs := outputs, metrics := metrics, revision := d.revision + 1)
  }

  lemma ReleaseOnly(db: Db, id: DeploymentId)
    ensures Release(db, id) == db.(reserved := Release(db, id).reserved)
  {
    hide StopProven;
  }

  /** Completing writes one row, and proof, reservation and lease beside it. */
  lemma FinishOnly(db: Db, id: DeploymentId, status: Status, message: string, outputs: Option<string>, metrics: nat, proof: bool)
    requires id in db.deployments
    ensures var db' := Finish(db, id, status, message, outputs, metrics, proof);
            && db' == db.(deployments := db.deployments[id := Finished(db.deployments[id], status, message, outputs, metrics)],
                          proven := db'.proven, reserved := db'.reserved, leases := db'.leases)
            && db.proven <= db'.proven
  {
    hide ProveStop, Release, StopProven;
    var written := db.(deployments := db.deployments[id := Finished(db.deployments[id], status, message, outputs, metrics)]);
    ProveStopOnly(written, id);
    var proven := if proof then ProveStop(written, id) else written;
    ReleaseOnly(proven, id);
    assert Finish(db, id, status, message, outputs, metrics, proof) == DropLease(Release(proven, id), id);
  }

  lemma FinishKeeps(db: Db, db': Db, id: DeploymentId, d: Deployment)
    requires id in db.deployments && !db.deployments[id].completed && db.proven <= db'.proven
    requires db' == db.(deployments := db.deployments[id := d], proven := db'.proven, reserved := db'.reserved, leases := db'.leases,
                        history := db'.history, completions := db'.completions, adoptions := db'.adoptions)
    ensures Keeps(db, db')
  {
  }

  lemma RecordConsistent(db: Db, db': Db, id: DeploymentId, d: Deployment)
    requires Consistent(db) && id in db.deployments && !db.deployments[id].completed
    requires d.completed && d.status != Executing && d.mode == db.deployments[id].mode && d.revision == db.deployments[id].revision + 1
    requires db'.deployments == db.deployments[id := d]
    requires db'.history == db.history + [id] && db'.completions == db.completions + [id]
    requires db'.adoptions == if d.mode == Mutating && d.status == Succeeded then db.adoptions + [id] else db.adoptions
    ensures Consistent(db')
  {
    assert RowOk(db, id);
    forall i | i in db'.deployments ensures RowOk(db', i) {
      assert RowOk(db, i);
    }
  }

  lemma FinishConsistent(db: Db, id: DeploymentId, status: Status, message: string, outputs: Option<string>, metrics: nat, proof: bool)
    requires Consistent(db) && id in db.deployments && !db.deployments[id].completed && status != Executing
    ensures var adopted := db.deployments[id].mode == Mutating && status == Succeeded;
            var db' := Record(Finish(db, id, status, message, outputs, metrics, proof), id, adopted);
            Consistent(db') && Keeps(db, db') && db'.inbox == db.inbox && db'.late == db.late
  {
    hide Finish, Consistent, Keeps;
    FinishOnly(db, id, status, message, outputs, metrics, proof);
    var adopted := db.deployments[id].mode == Mutating && status == Succeeded;
    var db' := Record(Finish(db, id, status, message, outputs, metrics, proof), id, adopted);
    RecordConsistent(db, db', id, Finished(db.deployments[id], status, message, outputs, metrics));
    FinishKeeps(db, db', id, Finished(db.deployments[id], status, message, outputs, metrics));
  }

  lemma KeepsOn(a: Db, b: Db, c: Db)
    requires Keeps(a, b) && Keeps(b, c)
    ensures Keeps(a, c)
  {
  }

  lemma LateOrdinaryKeeps(db: Db, id: DeploymentId, body: Body)
    requires id in db.deployments
    ensures var late := LateOrdinary(db, id, body);
            late.Kept? ==> SameRows(db, late.db) && Keeps(db, late.db) && late.db.inbox == db.inbox && late.db.late == db.late && late.db.leases == db.leases
                           && id in late.db.stopReceipts && late.db.stopReceipts[id] == body
  {
    ProveStopOnly(db.(stopReceipts := db.stopReceipts[id := body]), id);
    hide ProveStop;
  }

  lemma ObservationKeeps(db: Db, id: DeploymentId, body: Body)
    ensures !ObservationCompletion(db, id, body).Unhandled?
    ensures var seen := ObservationCompletion(db, id, body);
            seen.Kept? ==> SameRows(db, seen.db) && Keeps(db, seen.db) && seen.db.inbox == db.inbox && seen.db.late == db.late
                           && id in seen.db.observed && seen.db.observed[id] == body
  {
    ProveStopOnly(db.(observed := db.observed[id := body]), id);
    hide ProveStop;
  }

  lemma CompleteKeeps(db: Db, u: Update)
    requires Consistent(db) && u.id in db.deployments && !db.deployments[u.id].completed && u.status != Executing
    ensures Consistent(Complete(db, u)) && Keeps(db, Complete(db, u)) && Complete(db, u).inbox == db.inbox && Complete(db, u).late == db.late
  {
    hide Finish, Consistent, Keeps, Record;
    var w := Written(db.deployments[u.id], u);
    assert w.0 != Executing;
    FinishConsistent(db, u.id, w.0, w.1, w.2, u.body.metrics, u.proven && u.event.None?);
  }

  lemma SettleKeeps(db: Db, before: Db, u: Update)
    requires Consistent(db) && Consistent(before) && u.id in db.deployments && u.status != Executing
    requires Keeps(before, db) && before.late == db.late
    ensures var r := Settle(db, before, u);
            && Consistent(r.0) && Keeps(before, r.0) && r.0.late == db.late
            && (r.1 == Accepted ==> r.0.inbox == db.inbox) && (r.1 != Accepted ==> r.0 == before)
  {
    hide LateOrdinary, ObservationCompletion, Consistent, Keeps, Complete;
    var d := db.deployments[u.id];
    var seen := if u.proven && d.mode == Observation then ObservationCompletion(db, u.id, u.body) else Unhandled;
    var late := if u.proven && d.mode != Observation && d.completed then LateOrdinary(db, u.id, u.body) else Unhandled;
    KeepsSelf(before);
    LateOrdinaryKeeps(db, u.id, u.body);
    ObservationKeeps(db, u.id, u.body);
    if late.Kept? {
      SameRowsConsistent(db, late.db);
      KeepsOn(before, db, late.db);
    } else if seen.Kept? {
      SameRowsConsistent(db, seen.db);
      KeepsOn(before, db, seen.db);
      if !d.completed {
        CompleteKeeps(seen.db, u);
        KeepsOn(before, seen.db, Complete(seen.db, u));
      }
    } else if !d.completed {
      CompleteKeeps(db, u);
      KeepsOn(before, db, Complete(db, u));
    }
  }

  lemma KeepsSelf(db: Db)
    ensures Keeps(db, db)
  {
  }

  /** One result transaction: it commits or changes nothing, and a committed event is in the inbox. */
  lemma CommonUpdateKeeps(db: Db, u: Update)
    requires Consistent(db) && u.status != Executing
    ensures var r := CommonUpdate(db, u);
            && Consistent(r.0) && Keeps(db, r.0) && r.0.late == db.late
            && (r.1 != Accepted ==> r.0 == db)
            && r.0.inbox == (if r.1 == Accepted && u.event.Some? && u.event.value.id !in db.inbox
                             then db.inbox[u.event.value.id := InboxRow(u.event.value.runner, u.id, u.event.value.eventType)] else db.inbox)
            && (r.1 == Accepted && u.event.Some? && u.event.value.id in db.inbox ==> r.0 == db)
  {
    hide Settle, Keeps, Consistent;
    KeepsSelf(db);
    if u.id in db.deployments && !(u.event.Some? && (db.deployments[u.id].runner != u.event.value.runner || u.event.value.id in db.inbox)) {
      var e := u.event;
      var noted := if e.Some? then db.(inbox := db.inbox[e.value.id := InboxRow(e.value.runner, u.id, e.value.eventType)]) else db;
      SameRowsConsistent(db, noted);
      NotedKeeps(db, noted, e, u.id);
      SettleKeeps(noted, db, u);
    }
  }

  lemma CompleteApplies(db: Db, u: Update)
    requires u.id in db.deployments && u.status == StatusOf(u.body) && u.outputs == u.body.outputs
    requires db.deployments[u.id].mode == Observation ==> u.id in db.observed && db.observed[u.id] == u.body
    ensures Applied(Complete(db, u), u.id, u.body) && Complete(db, u).inbox == db.inbox
  {
    hide Finish;
    var w := Written(db.deployments[u.id], u);
    FinishOnly(db, u.id, w.0, w.1, w.2, u.body.metrics, u.proven && u.event.None?);
  }

  /** A result that is accepted and is not a duplicate is applied: its body is shown by the row or kept by a receipt, and its event is noted. */
  lemma AcceptedResultIsApplied(db: Db, id: DeploymentId, body: Body, message: string, event: Option<Event>)
    requires event.Some? ==> event.value.id !in db.inbox
    ensures var r := CommonUpdate(db, ResultUpdate(id, body, message, event));
            r.1 == Accepted ==>
              && Applied(r.0, id, body)
              && r.0.inbox == (if event.Some? then db.inbox[event.value.id := InboxRow(event.value.runner, id, event.value.eventType)] else db.inbox)
  {
    hide LateOrdinary, ObservationCompletion, Complete, ProveStop;
    var u := ResultUpdate(id, body, message, event);
    var noted := if event.Some? then db.(inbox := db.inbox[event.value.id := InboxRow(event.value.runner, id, event.value.eventType)]) else db;
    if id in db.deployments && (event.Some? ==> db.deployments[id].runner == event.value.runner) {
      assert CommonUpdate(db, u) == Settle(noted, db, u);
      LateOrdinaryKeeps(noted, id, body);
      ObservationKeeps(noted, id, body);
      var seen := ObservationCompletion(noted, id, body);
      if db.deployments[id].mode == Observation {
        if seen.Kept? { CompleteApplies(seen.db, u); }
      } else {
        CompleteApplies(noted, u);
      }
    }
  }

  /**
   The first result of an executing Deployment completes it: status, message, outputs and metrics are the result's, history and the
   completion event are written, adoption only on success of a mutating one, the event is in the inbox and the Deployment's lease is gone.
   */
  lemma FirstResultCompletes(db: Db, u: Update)
    requires u.id in db.deployments && !db.deployments[u.id].completed && db.deployments[u.id].mode != Observation && u.body.observation.None?
    requires u.event.Some? ==> u.event.value.runner == db.deployments[u.id].runner && u.event.value.id !in db.inbox
    ensures var (db', reply) := CommonUpdate(db, u); var d := db.deployments[u.id];
            && reply == Accepted
            && db'.deployments == db.deployments[u.id := Finished(d, u.status, u.message, u.outputs, u.body.metrics)]
            && db'.history == db.history + [u.id] && db'.completions == db.completions + [u.id]
            && db'.adoptions == (if d.mode == Mutating && u.status == Succeeded then db.adoptions + [u.id] else db.adoptions)
            && db'.inbox == (if u.event.Some? then db.inbox[u.event.value.id := InboxRow(u.event.value.runner, u.id, u.event.value.eventType)] else db.inbox)
            && db'.late == db.late && db'.stopReceipts == db.stopReceipts && db'.observed == db.observed
            && (forall e :: e in db'.leases ==> db'.leases[e] != u.id)
  {
    var e := u.event;
    var noted := if e.Some? then db.(inbox := db.inbox[e.value.id := InboxRow(e.value.runner, u.id, e.value.eventType)]) else db;
    FinishOnly(noted, u.id, u.status, u.message, u.outputs, u.body.metrics, u.proven && u.event.None?);
    hide Release, ProveStop;
  }

  lemma NotedKeeps(db: Db, noted: Db, e: Option<Event>, id: DeploymentId)
    requires noted == db.(inbox := noted.inbox)
    requires e.Some? ==> e.value.id !in db.inbox && noted.inbox == db.inbox[e.value.id := InboxRow(e.value.runner, id, e.value.eventType)]
    requires e.None? ==> noted.inbox == db.inbox
    ensures Keeps(db, noted)
  {
  }

  /** Retaining a late result: the first payload wins, an exact replay changes nothing, a different payload is refused. */
  lemma RetainLateKeeps(db: Db, e: Envelope)
    requires Consistent(db)
    ensures var r := RetainLate(db, e);
            && Consistent(r.0) && Keeps(db, r.0) && SameRows(db, r.0) && r.0.inbox == db.inbox
            && (r.1 != Accepted ==> r.0 == db)
            && (r.1 == Accepted ==> (e.deployment in r.0.late && r.0.late[e.deployment] == e)
                                    || (e.event in r.0.inbox && r.0.inbox[e.event] == InboxRow(e.runner, e.deployment, ResultEvent)))
            && (r.0 != db ==> r.0.late == db.late[e.deployment := e] && LateOk(r.0, e))
            && (e.deployment in db.late ==> r.0 == db)
            && (e.deployment in db.late && db.late[e.deployment] != e && e.event !in db.inbox ==> r.1 != Accepted)
            && (e.deployment in db.late && db.late[e.deployment] == e && e.event == ResultOf(e.deployment) ==> r.1 == Accepted)
  {
    hide ProveStop, Consistent, Keeps, LateAllowed, LateOk;
    KeepsSelf(db);
    if e.deployment !in db.late { RetainedOnly(db, e); }
    var db' := RetainLate(db, e).0;
    if db' != db {
      SameRowsConsistent(db, db');
      AllowedIsOk(db, db', e);
    }
  }

  lemma AllowedIsOk(db: Db, db': Db, e: Envelope)
    requires LateAllowed(db, e) && e.event == ResultOf(e.deployment) && db'.deployments == db.deployments && db'.operations == db.operations
    ensures LateOk(db', e)
  {
  }

  lemma RetainedOnly(db: Db, e: Envelope)
    requires e.deployment !in db.late
    ensures var db' := DropLease(ProveStop(db.(late := db.late[e.deployment := e]), e.deployment), e.deployment);
            SameRows(db, db') && Keeps(db, db') && db'.late == db.late[e.deployment := e] && db'.inbox == db.inbox && db'.operations == db.operations
  {
    ProveStopOnly(db.(late := db.late[e.deployment := e]), e.deployment);
    hide ProveStop;
  }

  /** A retained late result releases exactly the Deployment's own lease. */
  lemma RetainLateReleasesOwnLease(db: Db, e: Envelope)
    requires RetainLate(db, e).0 != db
    ensures var db' := RetainLate(db, e).0;
            forall environment :: environment in db.leases && db.leases[environment] != e.deployment <==>
              environment in db'.leases && environment in db.leases && db'.leases[environment] == db.leases[environment]
    ensures forall environment :: environment in RetainLate(db, e).0.leases ==> environment in db.leases
  {
  }

  lemma RetainOrdinaryKeeps(db: Db, e: Envelope)
    requires Consistent(db)
    ensures var r := RetainOrdinary(db, e);
            && Consistent(r.0) && Keeps(db, r.0) && SameRows(db, r.0) && r.0.leases == db.leases && r.0.late == db.late && r.0.inbox == db.inbox
            && (r.1 != Handled(Accepted) ==> r.0 == db)
            && (r.1 == Handled(Accepted) ==> e.deployment in r.0.stopReceipts && r.0.stopReceipts[e.deployment] == e.body)
  {
    hide LateOrdinary, Consistent, Keeps;
    KeepsSelf(db);
    if e.deployment in db.deployments {
      LateOrdinaryKeeps(db, e.deployment, e.body);
      SameRowsConsistent(db, RetainOrdinary(db, e).0);
    }
  }

  /** A watchdog that read an executing Deployment never overwrites a result that came in between. */
  lemma WatchdogKeeps(db: Db, id: DeploymentId, message: string, metrics: nat)
    requires Consistent(db)
    ensures var db' := WatchdogFails(db, id, 1, message, metrics); Consistent(db') && Keeps(db, db') && db'.inbox == db.inbox && db'.late == db.late
  {
    KeepsSelf(db);
    if id in db.deployments && db.deployments[id].revision == 1 {
      assert RowOk(db, id);
      hide Consistent, Keeps, Finish, Record;
      FinishConsistent(db, id, Failed, message, None, metrics, false);
    }
  }
}
