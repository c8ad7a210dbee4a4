/**
 What an acknowledged delivery means.

 The Runner forgets a result once its delivery is acknowledged.  The inbox knows an event by its identifier alone
 (ON CONFLICT (event_id) DO NOTHING) and acknowledges every known identifier, so a result is kept exactly as far as
 identifiers stand for one use: one Runner, one Deployment, one kind and one body.
 */
module Acknowledgements {
  import opened Basics
  import opened Results
  import opened ResultRuns

  /** The inbox row that this envelope writes. */
  predicate Noted(db: Db, e: Envelope) {
    e.event in db.inbox && db.inbox[e.event] == InboxRow(e.runner, e.deployment, ResultEvent)
  }

  /** The result is durable: retained as it is, or its body is kept as the stop receipt, or noted as this result and applied. */
  predicate Held(db: Db, e: Envelope) {
    || (e.deployment in db.late && db.late[e.deployment] == e)
    || (e.deployment in db.stopReceipts && db.stopReceipts[e.deployment] == e.body)
    || (Noted(db, e) && Applied(db, e.deployment, e.body))
  }

  lemma HeldStays(db: Db, db': Db, e: Envelope)
    requires Held(db, e) && Keeps(db, db')
    ensures Held(db', e)
  {
    if Applied(db, e.deployment, e.body) { AppliedStays(db, db', e.deployment, e.body); }
    hide Applied;
  }

  // ---------------------------------------------------------------- one acknowledgement

  lemma UpdateHolds(db: Db, e: Envelope, message: string)
    requires Consistent(db)
    ensures var r := CommonUpdate(db, ResultUpdate(e.deployment, e.body, message, Some(Event(e.event, e.runner, ResultEvent))));
            r.1 == Accepted ==> if e.event in db.inbox then r.0 == db else Held(r.0, e)
  {
    hide CommonUpdate, Consistent, Keeps, Applied;
    var event := Some(Event(e.event, e.runner, ResultEvent));
    CommonUpdateKeeps(db, ResultUpdate(e.deployment, e.body, message, event));
    if e.event !in db.inbox { AcceptedResultIsApplied(db, e.deployment, e.body, message, event); }
  }

  /**
   The transaction that acknowledges an envelope: an update holds the result if and only if its event was unknown or it was held before, the
   ordinary late path always does, and the late path does if and only if it was held before or is not already noted as this result.
   */
  lemma AcknowledgementHoldsIff(steps: seq<Step>, p: ProcessId)
    requires p in After(steps).appliers && After(steps).appliers[p].envelope !in After(steps).acknowledged
    requires After(steps).appliers[p].envelope in Next(After(steps), Go(p)).acknowledged
    ensures var s := After(steps); var s' := Next(s, Go(p)); var e := s.appliers[p].envelope;
            match s.appliers[p].phase
            case UpdateOne => Held(s'.db, e) <==> e.event !in s.db.inbox || Held(s.db, e)
            case RetainOrdinaryOne => Held(s'.db, e)
            case RetainLateOne => Held(s'.db, e) <==> !Noted(s.db, e) || Held(s.db, e)
            case _ => false
  {
    Reachable(steps);
    hide Run, Inv, Consistent, CommonUpdate, RetainOrdinary, RetainLate, Held, Keeps, LateOk;
    var s := After(steps);
    var a := s.appliers[p];
    ConsistentOf(s);
    match a.phase
    case UpdateOne =>
      UpdateHolds(s.db, a.envelope, a.message);
      GoKeeps(s, p);
      if Held(s.db, a.envelope) { HeldStays(s.db, Next(s, Go(p)).db, a.envelope); }
    case RetainOrdinaryOne => OrdinaryHolds(s.db, a.envelope);
    case RetainLateOne => LateHolds(s.db, a.envelope);
    case _ =>
  }

  lemma OrdinaryHolds(db: Db, e: Envelope)
    requires Consistent(db)
    ensures RetainOrdinary(db, e).1 == Handled(Accepted) ==> Held(RetainOrdinary(db, e).0, e)
  {
    hide RetainOrdinary, Consistent, Keeps, Applied;
    RetainOrdinaryKeeps(db, e);
  }

  lemma LateHolds(db: Db, e: Envelope)
    requires Consistent(db)
    ensures var r := RetainLate(db, e); r.1 == Accepted ==> (Held(r.0, e) <==> !Noted(db, e) || Held(db, e))
  {
    hide Consistent, Keeps, Applied, LateAllowed, LateOk, ProveStop;
    RetainLateKeeps(db, e);
    if e.deployment !in db.late { RetainedOnly(db, e); }
  }

  // ---------------------------------------------------------------- runs in which identifiers keep their meaning

  datatype Use =
    | ResultUse(runner: RunnerId, deployment: DeploymentId, body: Body)
    | ErrorUse(runner: RunnerId, deployment: DeploymentId)

  function UseOf(e: Envelope): Use {
    ResultUse(e.runner, e.deployment, e.body)
  }

  /** The event identifier of this step, if it has one, stands for what the step delivers. */
  predicate Agrees(meaning: EventId -> Use, step: Step) {
    match step
    case Deliver(_, e, _) => meaning(e.event) == UseOf(e)
    case PlainEvent(id, event, runner, body, _) => meaning(event) == ResultUse(runner, id, body)
    case RunnerError(id, event, runner, _) => meaning(event) == ErrorUse(runner, id)
    case _ => true
  }

  ghost predicate Honest(meaning: EventId -> Use, steps: seq<Step>) {
    forall i :: 0 <= i < |steps| ==> Agrees(meaning, steps[i])
  }

  /** The inbox row is the one of the identifier's meaning, and a result behind it is applied. */
  predicate RowMeans(db: Db, event: EventId, use: Use)
    requires event in db.inbox
  {
    match use
    case ResultUse(runner, id, body) => db.inbox[event] == InboxRow(runner, id, ResultEvent) && Applied(db, id, body)
    case ErrorUse(runner, id) => db.inbox[event] == InboxRow(runner, id, ErrorEvent)
  }

  ghost predicate RowsMean(meaning: EventId -> Use, db: Db) {
    forall event :: event in db.inbox ==> RowMeans(db, event, meaning(event))
  }

  ghost predicate HonestInv(meaning: EventId -> Use, s: State) {
    && Inv(s) && RowsMean(meaning, s.db)
    && (forall p :: p in s.appliers ==> meaning(s.appliers[p].envelope.event) == UseOf(s.appliers[p].envelope))
    && (forall e :: e in s.acknowledged ==> Held(s.db, e))
  }

  lemma RowStays(db: Db, db': Db, event: EventId, use: Use)
    requires event in db.inbox && RowMeans(db, event, use) && Keeps(db, db')
    ensures event in db'.inbox && RowMeans(db', event, use)
  {
    if use.ResultUse? { AppliedStays(db, db', use.deployment, use.body); }
    hide Applied;
  }

  /** The tables move on by a step that notes at most events that mean what they say. */
  lemma RowsStay(meaning: EventId -> Use, db: Db, db': Db)
    requires RowsMean(meaning, db) && Keeps(db, db')
    requires forall event :: event in db'.inbox && event !in db.inbox ==> RowMeans(db', event, meaning(event))
    ensures RowsMean(meaning, db')
  {
    hide Keeps, RowMeans;
    forall event | event in db'.inbox ensures RowMeans(db', event, meaning(event)) {
      if event in db.inbox { RowStays(db, db', event, meaning(event)); }
    }
  }

  lemma ResultRowsStay(meaning: EventId -> Use, db: Db, id: DeploymentId, body: Body, message: string, event: Option<Event>)
    requires Consistent(db) && RowsMean(meaning, db)
    requires event.Some? ==> event.value.eventType == ResultEvent && meaning(event.value.id) == ResultUse(event.value.runner, id, body)
    ensures RowsMean(meaning, CommonUpdate(db, ResultUpdate(id, body, message, event)).0)
  {
    hide RowsMean, Keeps, CommonUpdate, Applied, Consistent;
    CommonUpdateKeeps(db, ResultUpdate(id, body, message, event));
    if event.Some? ==> event.value.id !in db.inbox { AcceptedResultIsApplied(db, id, body, message, event); }
    RowsStay(meaning, db, CommonUpdate(db, ResultUpdate(id, body, message, event)).0);
  }

  lemma FailureRowsStay(meaning: EventId -> Use, db: Db, id: DeploymentId, message: string, event: Option<Event>)
    requires Consistent(db) && RowsMean(meaning, db)
    requires event.Some? ==> event.value.eventType == ErrorEvent && meaning(event.value.id) == ErrorUse(event.value.runner, id)
    ensures RowsMean(meaning, CommonUpdate(db, FailureUpdate(id, message, event)).0)
  {
    hide RowsMean, Keeps, CommonUpdate, Applied, Consistent;
    CommonUpdateKeeps(db, FailureUpdate(id, message, event));
    RowsStay(meaning, db, CommonUpdate(db, FailureUpdate(id, message, event)).0);
  }

  /** Under honest identifiers a duplicate is a delivery of the very result behind the inbox row. */
  lemma KnownIsHeld(meaning: EventId -> Use, db: Db, e: Envelope)
    requires RowsMean(meaning, db) && meaning(e.event) == UseOf(e) && e.event in db.inbox
    ensures Held(db, e)
  {
    hide Applied;
    assert RowMeans(db, e.event, meaning(e.event));
  }

  lemma GoRowsStay(meaning: EventId -> Use, s: State, p: ProcessId)
    requires HonestInv(meaning, s) && p in s.appliers
    ensures RowsMean(meaning, NextStep(s, p).db)
  {
    hide RowsMean, CommonUpdate, RetainOrdinary, RetainLate, Held, Inv, Keeps, Consistent, LateOk;
    GoKeeps(s, p);
    ConsistentOf(s);
    var a := s.appliers[p];
    var e := a.envelope;
    if a.phase == UpdateOne {
      ResultRowsStay(meaning, s.db, e.deployment, e.body, a.message, Some(Event(e.event, e.runner, ResultEvent)));
    } else {
      RetainOrdinaryKeeps(s.db, e);
      RetainLateKeeps(s.db, e);
      RowsStay(meaning, s.db, NextStep(s, p).db);
    }
  }

  lemma GoHolds(meaning: EventId -> Use, s: State, p: ProcessId)
    requires HonestInv(meaning, s) && p in s.appliers
    ensures var e := s.appliers[p].envelope; var s' := NextStep(s, p);
            && (forall f :: f in s'.acknowledged ==> f in s.acknowledged || f == e)
            && (e in s'.acknowledged ==> Held(s'.db, e))
  {
    hide RowsMean, CommonUpdate, RetainOrdinary, RetainLate, Held, Inv, Keeps, Consistent, LateOk;
    GoKeeps(s, p);
    ConsistentOf(s);
    var a := s.appliers[p];
    var e := a.envelope;
    if e in s.acknowledged { HeldStays(s.db, NextStep(s, p).db, e); }
    if e.event in s.db.inbox {
      KnownIsHeld(meaning, s.db, e);
      HeldStays(s.db, NextStep(s, p).db, e);
    }
    UpdateHolds(s.db, e, a.message);
    OrdinaryHolds(s.db, e);
    LateHolds(s.db, e);
  }

  lemma TablesRowsStay(meaning: EventId -> Use, s: State, step: Step)
    requires HonestInv(meaning, s)
    requires !step.Go? && !step.HttpResult? && !step.PlainEvent? && !step.RunnerError? && !step.ForceFail?
    ensures RowsMean(meaning, Next(s, step).db)
  {
    hide RowsMean, Held, Keeps, Consistent, LateOk, WatchdogFails;
    NextKeeps(s, step);
    if step.WatchdogFailure? && step.p in s.watchers { WatchdogKeeps(s.db, s.watchers[step.p].id, step.message, s.watchers[step.p].metrics); }
    RowsStay(meaning, s.db, Next(s, step).db);
  }

  lemma UpdateRowsStay(meaning: EventId -> Use, s: State, step: Step)
    requires HonestInv(meaning, s) && Agrees(meaning, step)
    requires step.HttpResult? || step.PlainEvent? || step.RunnerError? || step.ForceFail?
    ensures RowsMean(meaning, Next(s, step).db)
  {
    hide RowsMean, Held, CommonUpdate, Inv, Consistent;
    ConsistentOf(s);
    match step
    case HttpResult(id, body, message) => ResultRowsStay(meaning, s.db, id, body, message, None);
    case PlainEvent(id, event, runner, body, message) => ResultRowsStay(meaning, s.db, id, body, message, Some(Event(event, runner, ResultEvent)));
    case RunnerError(id, event, runner, message) => FailureRowsStay(meaning, s.db, id, message, Some(Event(event, runner, ErrorEvent)));
    case ForceFail(id) => FailureRowsStay(meaning, s.db, id, "deployment was manually failed by an operator", None);
  }

  /** Processes start with an agreed envelope and keep it, and only a transaction of their own acknowledges. */
  lemma ProcessesStay(meaning: EventId -> Use, s: State, step: Step)
    requires HonestInv(meaning, s) && Agrees(meaning, step)
    ensures var s' := Next(s, step);
            && (forall p :: p in s'.appliers ==> meaning(s'.appliers[p].envelope.event) == UseOf(s'.appliers[p].envelope))
            && (!step.Go? ==> s'.acknowledged == s.acknowledged)
  {
    hide RowsMean, Held, Inv, CommonUpdate, RetainLate, RetainOrdinary, WatchdogFails, Created;
  }

  lemma HeldStep(meaning: EventId -> Use, s: State, step: Step)
    requires HonestInv(meaning, s) && Agrees(meaning, step)
    ensures forall f :: f in Next(s, step).acknowledged ==> Held(Next(s, step).db, f)
  {
    NextKeeps(s, step);
    ProcessesStay(meaning, s, step);
    hide RowsMean, Held, Inv, Keeps, NextStep, CommonUpdate, WatchdogFails, Created;
    var s' := Next(s, step);
    if step.Go? && step.p in s.appliers { GoHolds(meaning, s, step.p); }
    forall f | f in s'.acknowledged ensures Held(s'.db, f) {
      if f in s.acknowledged { HeldStays(s.db, s'.db, f); }
    }
  }

  lemma HonestStep(meaning: EventId -> Use, s: State, step: Step)
    requires HonestInv(meaning, s) && Agrees(meaning, step)
    ensures HonestInv(meaning, Next(s, step))
  {
    hide RowsMean, Held, Inv, Keeps, Agrees, Next;
    NextKeeps(s, step);
    ProcessesStay(meaning, s, step);
    HeldStep(meaning, s, step);
    if step.Go? { GoStep(meaning, s, step.p); }
    else if step.HttpResult? || step.PlainEvent? || step.RunnerError? || step.ForceFail? { UpdateRowsStay(meaning, s, step); }
    else { TablesRowsStay(meaning, s, step); }
  }

  lemma GoStep(meaning: EventId -> Use, s: State, p: ProcessId)
    requires HonestInv(meaning, s)
    ensures RowsMean(meaning, Next(s, Go(p)).db)
  {
    hide RowsMean, Held, Inv, NextStep;
    if p in s.appliers { GoRowsStay(meaning, s, p); }
  }

  lemma {:induction false} HonestRun(meaning: EventId -> Use, s: State, steps: seq<Step>)
    requires HonestInv(meaning, s) && Honest(meaning, steps)
    ensures HonestInv(meaning, Run(s, steps))
    decreases |steps|
  {
    hide HonestInv, Agrees, Next;
    if steps != [] {
      HonestStep(meaning, s, steps[0]);
      HonestRun(meaning, Next(s, steps[0]), steps[1..]);
    }
  }

  lemma InitialHonest(meaning: EventId -> Use)
    ensures HonestInv(meaning, Initial)
  {
    Reachable([]);
    assert After([]) == Initial;
  }

  /**
   In every run whose event identifiers stand for one use each, an acknowledged result is durable, and stays so whatever happens later:
   the Runner may forget it.
   */
  lemma AcknowledgedResultIsRecorded(meaning: EventId -> Use, before: seq<Step>, more: seq<Step>, e: Envelope)
    requires Honest(meaning, before) && e in After(before).acknowledged
    ensures Held(After(before).db, e) && Held(Run(After(before), more).db, e)
  {
    hide Run, Held, Keeps, Inv, RowsMean;
    InitialHonest(meaning);
    HonestRun(meaning, Initial, before);
    RunKeeps(After(before), more);
    HeldStays(After(before).db, Run(After(before), more).db, e);
  }

  // ---------------------------------------------------------------- and runs in which they do not

  /** The two uses of one identifier differ in what the tables would show for them. */
  predicate Disagree(use: Use, e: Envelope) {
    || use.deployment != e.deployment
    || use.ErrorUse?
    || !(use.body.success == e.body.success && use.body.outputs == e.body.outputs && use.body.metrics == e.body.metrics)
  }

  function FirstUse(event: EventId, use: Use): Step {
    match use
    case ResultUse(runner, id, body) => PlainEvent(id, event, runner, body, "")
    case ErrorUse(runner, id) => RunnerError(id, event, runner, "")
  }

  function NewDeployment(id: DeploymentId, runner: RunnerId): Step {
    Create(id, 0, runner, Mutating, 0, true, None, None)
  }

  /** Both Deployments are there and executing, the inbox and the receipts are empty, and the delivery has peeked. */
  predicate Peeked(use: Use, e: Envelope, s: State) {
    && use.deployment in s.db.deployments && e.deployment in s.db.deployments
    && s.db.deployments[e.deployment].runner == e.runner && s.db.deployments[use.deployment].runner == use.runner
    && !s.db.deployments[use.deployment].completed && !s.db.deployments[e.deployment].completed
    && s.db.deployments[use.deployment].mode == Mutating
    && s.db.inbox == map[] && s.db.late == map[] && s.db.stopReceipts == map[] && s.db.observed == map[]
    && s.appliers == map[0 := Applier(e, "", UpdateOne)]
  }

  function Opening(use: Use, e: Envelope): seq<Step> {
    [NewDeployment(use.deployment, use.runner), NewDeployment(e.deployment, e.runner), Deliver(0, e, ""), Go(0)]
  }

  lemma BothCreated(use: Use, e: Envelope)
    requires use.deployment == e.deployment ==> use.runner == e.runner
    ensures var s := Next(Next(Initial, NewDeployment(use.deployment, use.runner)), NewDeployment(e.deployment, e.runner));
            && Peeked(use, e, s.(appliers := map[0 := Applier(e, "", UpdateOne)]))
            && s.appliers == map[] && !HasFailed(s.db, e.deployment)
  {
  }

  lemma OpeningPeeks(use: Use, e: Envelope)
    requires use.deployment == e.deployment ==> use.runner == e.runner
    ensures Peeked(use, e, After(Opening(use, e)))
  {
    hide Peeked, Run, NewDeployment, HasFailed, CommonUpdate, RetainLate, RetainOrdinary, Created, WatchdogFails;
    var steps := Opening(use, e);
    var s := Next(Next(Initial, steps[0]), steps[1]);
    BothCreated(use, e);
    PeekedDeployments(use, e, s.(appliers := map[0 := Applier(e, "", UpdateOne)]));
    var delivered := s.(appliers := map[0 := Applier(e, "", Peek)]);
    assert Next(s, steps[2]) == delivered;
    assert Next(delivered, steps[3]) == s.(appliers := map[0 := Applier(e, "", UpdateOne)]);
    hide Next;
    TwoSteps(Initial, steps[0], steps[1]);
    RunSteps(Initial, [steps[0], steps[1]], steps[2]);
    RunSteps(Initial, [steps[0], steps[1]] + [steps[2]], steps[3]);
    assert steps == [steps[0], steps[1]] + [steps[2]] + [steps[3]];
  }

  lemma PeekedDeployments(use: Use, e: Envelope, s: State)
    requires Peeked(use, e, s)
    ensures e.deployment in s.db.deployments
  {
  }

  lemma FirstUseCompletes(use: Use, e: Envelope, s: State)
    requires Peeked(use, e, s) && (use.ResultUse? ==> use.body.observation.None?)
    ensures var s' := Next(s, FirstUse(e.event, use));
            && use.deployment in s'.db.deployments && s'.db.deployments.Keys == s.db.deployments.Keys
            && (e.deployment != use.deployment ==> s'.db.deployments[e.deployment] == s.db.deployments[e.deployment])
            && (use.ResultUse? ==> Shows(s'.db.deployments[use.deployment], use.body))
            && s'.db.deployments[use.deployment].runner == use.runner && s'.db.deployments[use.deployment].mode == Mutating
            && s'.db.inbox == map[e.event := InboxRow(use.runner, use.deployment, if use.ResultUse? then ResultEvent else ErrorEvent)]
            && s'.db.late == map[] && s'.db.stopReceipts == map[] && s'.db.observed == map[]
            && s'.appliers == s.appliers
  {
    var update := match use
      case ResultUse(runner, id, body) => ResultUpdate(id, body, "", Some(Event(e.event, runner, ResultEvent)))
      case ErrorUse(runner, id) => FailureUpdate(id, "", Some(Event(e.event, runner, ErrorEvent)));
    hide CommonUpdate, NextStep, WatchdogFails, Created;
    FirstResultCompletes(s.db, update);
    assert Next(s, FirstUse(e.event, use)).db == CommonUpdate(s.db, update).0;
  }

  lemma DuplicateIsAcknowledged(s: State, e: Envelope)
    requires s.appliers == map[0 := Applier(e, "", UpdateOne)] && e.event in s.db.inbox
    requires e.deployment in s.db.deployments && s.db.deployments[e.deployment].runner == e.runner
    ensures e in Next(s, Go(0)).acknowledged && Next(s, Go(0)).db == s.db
  {
    hide Settle;
  }

  /**
   Whoever uses one identifier for two different things can lose a result: there is a run in which the other use lands between the first
   peek of the delivery and its update, the delivery is acknowledged, and nothing keeps its result.
   */
  lemma ReusedEventLosesResult(use: Use, e: Envelope)
    requires Disagree(use, e) && (use.ResultUse? ==> use.body.observation.None?)
    requires use.deployment == e.deployment ==> use.runner == e.runner
    ensures var s := After(Opening(use, e) + [FirstUse(e.event, use)] + [Go(0)]); e in s.acknowledged && !Held(s.db, e)
  {
    hide Next, Run, CommonUpdate;
    var opening := Opening(use, e);
    var s := After(opening);
    OpeningPeeks(use, e);
    FirstUseCompletes(use, e, s);
    var s1 := Next(s, FirstUse(e.event, use));
    DuplicateIsAcknowledged(s1, e);
    RunSteps(Initial, opening, FirstUse(e.event, use));
    RunSteps(Initial, opening + [FirstUse(e.event, use)], Go(0));
  }

  /** Two Deployments of one Runner under one identifier: the second result is acknowledged, and its Deployment still executes. */
  lemma SharedEventLeavesDeploymentExecuting(runner: RunnerId, first: DeploymentId, second: DeploymentId, event: EventId, body: Body, createdAt: Time)
    requires first != second && body.observation.None?
    ensures var e := Envelope(event, runner, second, createdAt, None, body);
            var s := After(Opening(ResultUse(runner, first, body), e) + [FirstUse(event, ResultUse(runner, first, body))] + [Go(0)]);
            && e in s.acknowledged && second in s.db.deployments && !s.db.deployments[second].completed
  {
    var use := ResultUse(runner, first, body);
    var e := Envelope(event, runner, second, createdAt, None, body);
    hide Next, Run, CommonUpdate;
    var opening := Opening(use, e);
    var s := After(opening);
    OpeningPeeks(use, e);
    FirstUseCompletes(use, e, s);
    var s1 := Next(s, FirstUse(event, use));
    DuplicateIsAcknowledged(s1, e);
    RunSteps(Initial, opening, FirstUse(event, use));
    RunSteps(Initial, opening + [FirstUse(event, use)], Go(0));
  }
}
