/**
 The Environment deployment queue and its promotion by any number of replicas.

 A promotion is one transaction: it locks the head row (other promoters skip it, cancel is refused),
 checks the Environment, creates the Deployment under the Environment lock, and settles the item.
 Nothing it wrote is visible before Commit; Abort stands for an error, a failed commit, a timeout or a
 crash, and drops everything.  Cancel, sweep, prune, enqueue and direct creation are single transactions.
 What a clock or a remote service decides (expiry, an unreconciled fence, why a creation failed) is
 chosen by the event.
 */
module Queue {
  import opened Basics

  type ItemId = nat
  type DeploymentId = nat
  type Environment = nat
  type PromoterId = nat

  /** Deleted: the row went with its Environment. */
  datatype Outcome = Dispatched(deployment: DeploymentId) | Cancelled | Expired | Rejected | Deleted

  datatype ItemState = Queued | Settled(outcome: Outcome)

  datatype Item = Item(environment: Environment, number: nat, state: ItemState, attempts: nat, haltOnFailure: bool, enqueuedAfter: Option<DeploymentId>)

  datatype Status = Executing | Succeeded | Failed

  /** item: the queue item whose promotion created it; None for a direct creation. */
  datatype Deployment = Deployment(environment: Environment, plan: bool, status: Status, item: Option<ItemId>)

  /** Head locked; Environment checked; Deployment written inside the savepoint; retry written; settlement written. */
  datatype Phase =
    | Holding
    | Checked
    | Created(deployment: DeploymentId)
    | Deferring
    | Settling(order: seq<ItemId>, outcome: Outcome)

  datatype Promoter = Promoter(item: ItemId, phase: Phase)

  datatype Settlement = Settlement(item: ItemId, environment: Environment, number: nat, outcome: Outcome)

  type Items = map<ItemId, Item>

  /** Committed rows.  log lists every committed settlement in commit order; unlike items it is never pruned. */
  datatype Db = Db(
    items: Items,
    enqueued: set<ItemId>,
    next: nat,
    deployments: map<DeploymentId, Deployment>,
    executing: map<Environment, DeploymentId>,
    heads: map<Environment, DeploymentId>,
    log: seq<Settlement>)

  datatype State = State(
    db: Db,
    locks: map<ItemId, PromoterId>,
    environmentLocks: map<Environment, PromoterId>,
    promoters: map<PromoterId, Promoter>,
    issued: map<DeploymentId, Option<ItemId>>)

  const Initial := State(Db(map[], {}, 0, map[], map[], map[], []), map[], map[], map[], map[])

  // ---------------------------------------------------------------- why a creation failed

  /** What errors.Is and errors.As find in the error; busy and unreconciled are conflicts as well. */
  datatype CreationError = CreationError(unreconciled: bool, busy: bool, denied: bool, forbidden: bool, conflict: bool, badRequest: bool, notFound: bool)

  datatype Verdict = RetryLater | RejectItem | RejectAll

  function Classify(e: CreationError): Verdict {
    if e.unreconciled then RejectAll
    else if e.busy then RetryLater
    else if e.denied then RejectItem
    else if e.forbidden then RejectItem
    else if e.conflict then RejectItem
    else if e.badRequest then RejectItem
    else if e.notFound then RejectItem
    else RetryLater
  }

  /** The error is a decision about this very request, and not about a busy Environment. */
  predicate AboutRequest(e: CreationError) {
    !e.busy && (e.denied || e.forbidden || e.conflict || e.badRequest || e.notFound)
  }

  lemma VerdictsAre(e: CreationError)
    ensures Classify(e) == RejectAll <==> e.unreconciled
    ensures Classify(e) == RejectItem <==> !e.unreconciled && AboutRequest(e)
  {
  }

  // ---------------------------------------------------------------- steps

  datatype Event =
    | Enqueue(i: ItemId, environment: Environment, haltOnFailure: bool)
    | Cancel(i: ItemId)
    | Sweep(i: ItemId)
    | Prune(i: ItemId)
    | DeleteEnvironment(environment: Environment, order: seq<ItemId>)
    | Direct(environment: Environment, plan: bool, d: DeploymentId)
    | Ended(d: DeploymentId, succeeded: bool)
    | Claim(p: PromoterId, i: ItemId)
    | FindExpired(p: PromoterId)
    | FindUnreconciled(p: PromoterId, order: seq<ItemId>)
    | Check(p: PromoterId)
    | Create(p: PromoterId, d: DeploymentId)
    | CreationFails(p: PromoterId, error: CreationError, order: seq<ItemId>)
    | Dispatch(p: PromoterId)
    | Commit(p: PromoterId)
    | Abort(p: PromoterId)

  predicate Waiting(items: Items, i: ItemId) {
    i in items && items[i].state.Queued?
  }

  predicate WaitingIn(items: Items, i: ItemId, environment: Environment) {
    Waiting(items, i) && items[i].environment == environment
  }

  predicate IsHead(items: Items, i: ItemId) {
    Waiting(items, i) && forall j :: j in items && WaitingIn(items, j, items[i].environment) ==> items[i].number <= items[j].number
  }

  /** HaltingDeploymentQueuePredecessor: the state head failed after the item was enqueued. */
  predicate Halts(db: Db, i: ItemId)
    requires i in db.items
  {
    var item := db.items[i];
    && item.haltOnFailure && item.environment in db.heads && db.heads[item.environment] in db.deployments
    && var head := db.deployments[db.heads[item.environment]];
       !head.plan && head.status == Failed && item.enqueuedAfter != Some(db.heads[item.environment])
  }

  /** The rows a promoter's transaction has locked. */
  function Held(q: Promoter): set<ItemId> {
    {q.item} + if q.phase.Settling? then (set i | i in q.phase.order) else {}
  }

  /** The uncommitted Deployment inside a promoter's transaction. */
  function Buffered(q: Promoter): Option<DeploymentId> {
    if q.phase.Created? then Some(q.phase.deployment)
    else if q.phase.Settling? && q.phase.outcome.Dispatched? then Some(q.phase.outcome.deployment)
    else None
  }

  predicate Distinct(order: seq<ItemId>) {
    forall j, k :: 0 <= j < k < |order| ==> order[j] != order[k]
  }

  /** UPDATE of every waiting row of the Environment: it takes them all, so none may be locked by another transaction. */
  predicate TakesAll(s: State, p: PromoterId, environment: Environment, order: seq<ItemId>) {
    && Distinct(order)
    && (forall i :: i in s.db.items && WaitingIn(s.db.items, i, environment) ==> i in order)
    && (forall i :: i in order ==> WaitingIn(s.db.items, i, environment) && (i in s.locks ==> s.locks[i] == p))
  }

  function SettledItems(items: Items, order: seq<ItemId>, outcome: Outcome): Items {
    map i | i in items :: if i in order then items[i].(state := Settled(outcome)) else items[i]
  }

  function Entries(items: Items, order: seq<ItemId>, outcome: Outcome): seq<Settlement>
    requires forall i :: i in order ==> i in items
  {
    seq(|order|, k requires 0 <= k < |order| => Settlement(order[k], items[order[k]].environment, items[order[k]].number, outcome))
  }

  /** SettleDeploymentQueueItem and SettleQueuedDeployments: a compare-and-swap on queued. */
  function SettleAll(db: Db, order: seq<ItemId>, outcome: Outcome): Db
    requires forall i :: i in order ==> i in db.items && Waiting(db.items, i)
  {
    db.(items := SettledItems(db.items, order, outcome), log := db.log + Entries(db.items, order, outcome))
  }

  function Without(locks: map<nat, PromoterId>, p: PromoterId): map<nat, PromoterId> {
    map k | k in locks && locks[k] != p :: locks[k]
  }

  function With(locks: map<nat, PromoterId>, order: seq<ItemId>, p: PromoterId): map<nat, PromoterId> {
    locks + map i | i in order :: p
  }

  function End(s: State, p: PromoterId): State {
    s.(promoters := s.promoters - {p}, locks := Without(s.locks, p), environmentLocks := Without(s.environmentLocks, p))
  }

  function Go(s: State, p: PromoterId, phase: Phase): State
    requires p in s.promoters
  {
    s.(promoters := s.promoters[p := s.promoters[p].(phase := phase)])
  }

  /** CreateDeployment commits: the Deployment exists, runs, and unless it is a plan (or the first) heads the Environment's state. */
  function Insert(db: Db, d: DeploymentId, environment: Environment, plan: bool, item: Option<ItemId>): Db {
    db.(deployments := db.deployments[d := Deployment(environment, plan, Executing, item)],
        executing := db.executing[environment := d],
        heads := if plan && environment in db.heads then db.heads else db.heads[environment := d])
  }

  function Defer(db: Db, i: ItemId): Db
    requires i in db.items
  {
    db.(items := db.items[i := db.items[i].(attempts := db.items[i].attempts + 1)])
  }

  function StepCommit(s: State, p: PromoterId): State
    requires p in s.promoters && s.promoters[p].item in s.db.items
  {
    var q := s.promoters[p];
    if q.phase.Deferring? && Waiting(s.db.items, q.item) then End(s, p).(db := Defer(s.db, q.item))
    else if q.phase.Settling? && forall i :: i in q.phase.order ==> i in s.db.items && Waiting(s.db.items, i) then
      var settled := SettleAll(s.db, q.phase.order, q.phase.outcome);
      End(s, p).(db :=
        if q.phase.outcome.Dispatched? then Insert(settled, q.phase.outcome.deployment, s.db.items[q.item].environment, false, Some(q.item))
        else settled)
    else s
  }

  function StepCreate(s: State, p: PromoterId, d: DeploymentId): State
    requires p in s.promoters && s.promoters[p].item in s.db.items
  {
    var q := s.promoters[p];
    var environment := s.db.items[q.item].environment;
    if !q.phase.Checked? || environment in s.environmentLocks || d in s.issued || environment in s.db.executing || !IsHead(s.db.items, q.item) then s
    else Go(s.(environmentLocks := s.environmentLocks[environment := p], issued := s.issued[d := Some(q.item)]), p, Created(d))
  }

  /** ROLLBACK TO SAVEPOINT drops the Deployment and the Environment lock. */
  function StepFails(s: State, p: PromoterId, error: CreationError, order: seq<ItemId>): State
    requires p in s.promoters && s.promoters[p].item in s.db.items
  {
    var q := s.promoters[p];
    var back := s.(environmentLocks := Without(s.environmentLocks, p));
    if !q.phase.Checked? && !q.phase.Created? then s
    else
      match Classify(error)
      case RejectItem => Go(back, p, Settling([q.item], Rejected))
      case RetryLater => Go(back, p, Deferring)
      case RejectAll =>
        if !TakesAll(s, p, s.db.items[q.item].environment, order) then s
        else Go(back.(locks := With(s.locks, order, p)), p, Settling(order, Rejected))
  }

  function StepPromoter(s: State, e: Event): State
    requires e.FindExpired? || e.FindUnreconciled? || e.Check? || e.Create? || e.CreationFails? || e.Dispatch? || e.Commit? || e.Abort?
    requires e.p in s.promoters && s.promoters[e.p].item in s.db.items
  {
    var p := e.p;
    var q := s.promoters[p];
    var environment := s.db.items[q.item].environment;
    match e
    case FindExpired(_) => if q.phase.Holding? then Go(s, p, Settling([q.item], Expired)) else s
    case FindUnreconciled(_, order) =>
      if !q.phase.Holding? || !TakesAll(s, p, environment, order) then s
      else Go(s.(locks := With(s.locks, order, p)), p, Settling(order, Rejected))
    case Check(_) =>
      if !q.phase.Holding? then s
      else if environment in s.db.executing then End(s, p)
      else if Halts(s.db, q.item) then Go(s, p, Settling([q.item], Rejected))
      else Go(s, p, Checked)
    case Create(_, d) => StepCreate(s, p, d)
    case CreationFails(_, error, order) => StepFails(s, p, error, order)
    case Dispatch(_) => if q.phase.Created? then Go(s, p, Settling([q.item], Dispatched(q.phase.deployment))) else s
    case Commit(_) => StepCommit(s, p)
    case Abort(_) => End(s, p)
  }

  function Enqueued(db: Db, i: ItemId, environment: Environment, haltOnFailure: bool): Db {
    var ended := environment in db.heads && db.heads[environment] in db.deployments && db.deployments[db.heads[environment]].status != Executing;
    db.(items := db.items[i := Item(environment, db.next, Queued, 0, haltOnFailure,
                                    if haltOnFailure && ended then Some(db.heads[environment]) else None)],
        enqueued := db.enqueued + {i}, next := db.next + 1)
  }

  /** DELETE of the Environment's rows under its lock: order are those that wait, and none is locked. */
  predicate Deletable(s: State, environment: Environment, order: seq<ItemId>) {
    && environment !in s.environmentLocks && Distinct(order)
    && (forall i :: i in s.db.items && WaitingIn(s.db.items, i, environment) ==> i in order)
    && (forall i :: i in order ==> WaitingIn(s.db.items, i, environment) && i !in s.locks)
  }

  function WithoutRows(db: Db, environment: Environment): Db {
    db.(items := map i | i in db.items && db.items[i].environment != environment :: db.items[i])
  }

  function Completed(db: Db, d: DeploymentId, succeeded: bool): Db
    requires d in db.deployments
  {
    db.(deployments := db.deployments[d := db.deployments[d].(status := if succeeded then Succeeded else Failed)],
        executing := db.executing - {db.deployments[d].environment})
  }

  function Step(s: State, e: Event): State {
    match e
    case Enqueue(i, environment, halt) =>
      if i in s.db.enqueued || environment in s.environmentLocks then s else s.(db := Enqueued(s.db, i, environment, halt))
    case Cancel(i) => if Waiting(s.db.items, i) && i !in s.locks then s.(db := SettleAll(s.db, [i], Cancelled)) else s
    case Sweep(i) => if Waiting(s.db.items, i) && i !in s.locks then s.(db := SettleAll(s.db, [i], Expired)) else s
    case Prune(i) => if i in s.db.items && s.db.items[i].state.Settled? then s.(db := s.db.(items := s.db.items - {i})) else s
    case DeleteEnvironment(environment, order) =>
      if !Deletable(s, environment, order) then s else s.(db := WithoutRows(SettleAll(s.db, order, Deleted), environment))
    case Direct(environment, plan, d) =>
      if d in s.issued || environment in s.environmentLocks || environment in s.db.executing then s
      else if !plan && exists i :: i in s.db.items && WaitingIn(s.db.items, i, environment) then s
      else s.(issued := s.issued[d := None], db := Insert(s.db, d, environment, plan, None))
    case Ended(d, succeeded) =>
      if d !in s.db.deployments || s.db.deployments[d].status != Executing then s else s.(db := Completed(s.db, d, succeeded))
    case Claim(p, i) =>
      if p in s.promoters || i in s.locks || !IsHead(s.db.items, i) then s
      else s.(promoters := s.promoters[p := Promoter(i, Holding)], locks := s.locks[i := p])
    case _ =>
      if e.p in s.promoters && s.promoters[e.p].item in s.db.items then StepPromoter(s, e) else s
  }

  function Run(s: State, events: seq<Event>): State
    decreases |events|
  {
    if events == [] then s else Run(Step(s, events[0]), events[1..])
  }

  function After(events: seq<Event>): State {
    Run(Initial, events)
  }

  // ---------------------------------------------------------------- invariant

  /** What the committed rows promise an open transaction. */
  predicate SeesRows(db: Db, q: Promoter) {
    && (forall i :: i in Held(q) ==> Waiting(db.items, i))
    && IsHead(db.items, q.item)
    && (q.phase.Settling? ==> Distinct(q.phase.order) && (q.phase.outcome.Dispatched? ==> q.phase.order == [q.item]))
    && (q.phase.Checked? || Buffered(q).Some? ==> MayStart(db, q.item))
    && (Buffered(q).Some? ==> Buffered(q).value !in db.deployments && db.items[q.item].environment !in db.executing)
  }

  /** No predecessor halts the item, and only a plan may be running. */
  predicate MayStart(db: Db, i: ItemId)
    requires i in db.items
  {
    && !Halts(db, i)
    && var environment := db.items[i].environment;
       environment in db.executing && db.executing[environment] in db.deployments ==> db.deployments[db.executing[environment]].plan
  }

  /** The locks and the identifier an open transaction has. */
  predicate HasLocks(s: State, p: PromoterId, q: Promoter) {
    && (forall i :: i in Held(q) ==> i in s.locks && s.locks[i] == p)
    && (Buffered(q).Some? ==>
          && Buffered(q).value in s.issued && s.issued[Buffered(q).value] == Some(q.item)
          && q.item in s.db.items
          && var environment := s.db.items[q.item].environment; environment in s.environmentLocks && s.environmentLocks[environment] == p)
  }

  predicate PromotersOk(s: State) {
    forall p :: p in s.promoters ==> SeesRows(s.db, s.promoters[p]) && HasLocks(s, p, s.promoters[p])
  }

  predicate LocksOk(s: State) {
    && (forall i :: i in s.locks ==> s.locks[i] in s.promoters && i in Held(s.promoters[s.locks[i]]))
    && (forall e :: e in s.environmentLocks ==> s.environmentLocks[e] in s.promoters && BuffersIn(s.db, s.promoters[s.environmentLocks[e]], e))
  }

  predicate BuffersIn(db: Db, q: Promoter, environment: Environment) {
    Buffered(q).Some? && q.item in db.items && db.items[q.item].environment == environment
  }

  predicate ItemsOk(items: Items, enqueued: set<ItemId>, next: nat) {
    && (forall i :: i in items ==> i in enqueued && items[i].number < next)
    && (forall i, j :: i in items && j in items && i != j ==> items[i].number != items[j].number)
  }

  predicate DeploymentsOk(db: Db) {
    && (forall d :: d in db.deployments && db.deployments[d].status == Executing ==>
          db.deployments[d].environment in db.executing && db.executing[db.deployments[d].environment] == d)
    && (forall e :: e in db.executing ==> db.executing[e] in db.deployments && db.deployments[db.executing[e]].environment == e
                                          && db.deployments[db.executing[e]].status == Executing)
    && (forall e :: e in db.heads ==> db.heads[e] in db.deployments && db.deployments[db.heads[e]].environment == e)
  }

  predicate InLog(log: seq<Settlement>, i: ItemId) {
    exists k :: 0 <= k < |log| && log[k].item == i
  }

  /** Every item ever enqueued waits, or is in the log; nothing is in both, and nothing is in the log twice. */
  predicate Conserved(items: Items, enqueued: set<ItemId>, log: seq<Settlement>) {
    && (forall i :: i in enqueued ==> Waiting(items, i) != InLog(log, i))
    && (forall k :: 0 <= k < |log| ==> log[k].item in enqueued)
    && (forall j, k :: 0 <= j < k < |log| ==> log[j].item != log[k].item)
    && (forall k :: 0 <= k < |log| && log[k].item in items ==> items[log[k].item].state == Settled(log[k].outcome))
  }

  predicate DispatchedAs(log: seq<Settlement>, i: ItemId, d: DeploymentId) {
    exists k :: 0 <= k < |log| && log[k].item == i && log[k].outcome == Dispatched(d)
  }

  /** Dispatched items and promoted Deployments name each other. */
  predicate Paired(log: seq<Settlement>, deployments: map<DeploymentId, Deployment>) {
    && (forall k :: 0 <= k < |log| && log[k].outcome.Dispatched? ==>
          log[k].outcome.deployment in deployments && deployments[log[k].outcome.deployment].item == Some(log[k].item))
    && (forall d :: d in deployments && deployments[d].item.Some? ==> DispatchedAs(log, deployments[d].item.value, d))
  }

  predicate SameQueue(a: Settlement, b: Settlement) {
    a.outcome.Dispatched? && b.outcome.Dispatched? && a.environment == b.environment
  }

  /** Dispatches of one Environment follow the order of enqueueing, and everything that waits came later. */
  predicate InOrder(items: Items, next: nat, log: seq<Settlement>) {
    && (forall j, k :: 0 <= j < k < |log| && SameQueue(log[j], log[k]) ==> log[j].number < log[k].number)
    && (forall k, i :: 0 <= k < |log| && log[k].outcome.Dispatched? && i in items && WaitingIn(items, i, log[k].environment) ==>
          log[k].number < items[i].number)
    && (forall k :: 0 <= k < |log| ==> log[k].number < next)
  }

  predicate Committed(db: Db) {
    && DeploymentsOk(db) && ItemsOk(db.items, db.enqueued, db.next) && Conserved(db.items, db.enqueued, db.log)
    && Paired(db.log, db.deployments) && InOrder(db.items, db.next, db.log)
  }

  predicate Inv(s: State) {
    && PromotersOk(s) && LocksOk(s) && Committed(s.db)
    && (forall d :: d in s.db.deployments ==> d in s.issued)
  }

  /** What no step takes back: the log grows, and a promoted Deployment stays the Deployment of its item. */
  predicate Keeps(db: Db, db': Db) {
    && db.log <= db'.log && db.enqueued <= db'.enqueued
    && (forall d :: d in db.deployments ==> d in db'.deployments && db'.deployments[d].item == db.deployments[d].item)
  }

  // ---------------------------------------------------------------- transactions in progress

  /** Two promoters never work on one Environment: both would hold its head. */
  lemma OnePromoterPerEnvironment(s: State, p: PromoterId, p': PromoterId)
    requires PromotersOk(s) && ItemsOk(s.db.items, s.db.enqueued, s.db.next) && p in s.promoters && p' in s.promoters
    requires s.promoters[p].item in s.db.items && s.promoters[p'].item in s.db.items
    requires s.db.items[s.promoters[p].item].environment == s.db.items[s.promoters[p'].item].environment
    ensures p == p'
  {
    var i, i' := s.promoters[p].item, s.promoters[p'].item;
    assert SeesRows(s.db, s.promoters[p]) && SeesRows(s.db, s.promoters[p']);
    assert HasLocks(s, p, s.promoters[p]) && HasLocks(s, p', s.promoters[p']);
    assert i in Held(s.promoters[p]) && i' in Held(s.promoters[p']);
    assert s.db.items[i].number == s.db.items[i'].number;
  }

  /** Transaction p starts, moves on or ends; the locks of all others stay. */
  predicate Moves(s: State, s': State, p: PromoterId) {
    && s'.db == s.db
    && (forall r :: r in s.promoters && r != p ==> r in s'.promoters && s'.promoters[r] == s.promoters[r])
    && (forall r :: r in s'.promoters && r != p ==> r in s.promoters)
    && (forall i :: i in s.locks && s.locks[i] != p ==> i in s'.locks && s'.locks[i] == s.locks[i])
    && (forall e :: e in s.environmentLocks && s.environmentLocks[e] != p ==> e in s'.environmentLocks && s'.environmentLocks[e] == s.environmentLocks[e])
    && (forall d :: d in s.issued ==> d in s'.issued && s'.issued[d] == s.issued[d])
  }

  /** The locks p has after its step are those its new phase accounts for. */
  predicate OwnLocks(s: State, s': State, p: PromoterId) {
    && (forall i :: i in s'.locks && s'.locks[i] == p ==> p in s'.promoters && i in Held(s'.promoters[p]))
    && (forall i :: i in s'.locks && s'.locks[i] != p ==> i in s.locks && s.locks[i] == s'.locks[i])
    && (forall e :: e in s'.environmentLocks && s'.environmentLocks[e] == p ==> p in s'.promoters && BuffersIn(s'.db, s'.promoters[p], e))
    && (forall e :: e in s'.environmentLocks && s'.environmentLocks[e] != p ==> e in s.environmentLocks && s.environmentLocks[e] == s'.environmentLocks[e])
  }

  lemma MoveKeepsLocks(s: State, s': State, p: PromoterId)
    requires LocksOk(s) && Moves(s, s', p) && OwnLocks(s, s', p)
    ensures LocksOk(s')
  {
    hide Held, BuffersIn;
  }

  lemma MoveKeepsOthers(s: State, s': State, p: PromoterId, r: PromoterId)
    requires r in s.promoters && r != p && HasLocks(s, r, s.promoters[r]) && Moves(s, s', p)
    ensures HasLocks(s', r, s'.promoters[r])
  {
    hide Held, Buffered;
  }

  lemma MoveKeeps(s: State, s': State, p: PromoterId)
    requires Inv(s) && Moves(s, s', p) && OwnLocks(s, s', p)
    requires p in s'.promoters ==> SeesRows(s'.db, s'.promoters[p]) && HasLocks(s', p, s'.promoters[p])
    ensures Inv(s') && Keeps(s.db, s'.db)
  {
    hide SeesRows, HasLocks, Committed, LocksOk, OwnLocks;
    MoveKeepsLocks(s, s', p);
    forall r | r in s'.promoters ensures SeesRows(s'.db, s'.promoters[r]) && HasLocks(s', r, s'.promoters[r]) {
      if r != p { MoveKeepsOthers(s, s', p, r); }
    }
  }

  /** A promoter that keeps its locks goes on in a phase it can account for. */
  lemma GoKeeps(s: State, p: PromoterId, phase: Phase)
    requires Inv(s) && p in s.promoters
    requires Held(s.promoters[p].(phase := phase)) == Held(s.promoters[p])
    requires Buffered(s.promoters[p].(phase := phase)) == Buffered(s.promoters[p])
    requires SeesRows(s.db, s.promoters[p].(phase := phase))
    ensures Inv(Go(s, p, phase)) && Keeps(s.db, Go(s, p, phase).db)
  {
    hide Held, Buffered, Committed, Keeps, SeesRows;
    assert HasLocks(s, p, s.promoters[p]);
    assert LocksOk(s);
    MoveKeeps(s, Go(s, p, phase), p);
  }

  lemma EndKeeps(s: State, p: PromoterId)
    requires Inv(s)
    ensures Inv(End(s, p)) && Keeps(s.db, End(s, p).db)
  {
    hide Held, Buffered, Committed, Keeps, SeesRows, BuffersIn;
    MoveKeeps(s, End(s, p), p);
  }

  /** What the rows promise does not depend on whether one row is settled, deferred or only held. */
  lemma SeesOne(db: Db, q: Promoter, phase: Phase)
    requires SeesRows(db, q) && !q.phase.Settling?
    requires phase.Deferring? || (phase.Settling? && phase.order == [q.item] && !phase.outcome.Dispatched?)
    ensures SeesRows(db, q.(phase := phase)) && Held(q.(phase := phase)) == Held(q) && Buffered(q.(phase := phase)).None?
  {
    hide IsHead, MayStart;
  }

  lemma SeesChecked(db: Db, q: Promoter)
    requires SeesRows(db, q) && q.phase.Holding? && MayStart(db, q.item)
    ensures SeesRows(db, q.(phase := Checked)) && Held(q.(phase := Checked)) == Held(q) && Buffered(q.(phase := Checked)) == Buffered(q)
  {
    hide IsHead, MayStart;
  }

  lemma SeesCreated(db: Db, q: Promoter, d: DeploymentId)
    requires SeesRows(db, q) && q.phase.Checked? && d !in db.deployments && db.items[q.item].environment !in db.executing
    ensures SeesRows(db, q.(phase := Created(d))) && Held(q.(phase := Created(d))) == Held(q) && Buffered(q).None?
  {
    hide IsHead, MayStart;
  }

  lemma SeesDispatch(db: Db, q: Promoter)
    requires SeesRows(db, q) && q.phase.Created?
    ensures var q' := q.(phase := Settling([q.item], Dispatched(q.phase.deployment)));
            SeesRows(db, q') && Held(q') == Held(q) && Buffered(q') == Buffered(q)
  {
    hide IsHead, MayStart;
  }

  lemma SeesAll(db: Db, q: Promoter, order: seq<ItemId>)
    requires SeesRows(db, q) && !q.phase.Settling? && Distinct(order) && forall i :: i in order ==> Waiting(db.items, i)
    ensures var q' := q.(phase := Settling(order, Rejected));
            SeesRows(db, q') && Held(q') == Held(q) + (set i | i in order) && Buffered(q').None?
  {
    hide IsHead, MayStart;
  }

  lemma Sees(s: State, p: PromoterId)
    requires Inv(s) && p in s.promoters
    ensures SeesRows(s.db, s.promoters[p]) && HasLocks(s, p, s.promoters[p])
  {
    hide SeesRows, HasLocks, Committed, LocksOk;
  }

  lemma ClaimKeeps(s: State, p: PromoterId, i: ItemId)
    requires Inv(s)
    ensures Inv(Step(s, Claim(p, i))) && Keeps(s.db, Step(s, Claim(p, i)).db)
  {
    hide Inv, Keeps;
    var s' := Step(s, Claim(p, i));
    KeepsItself(s.db);
    if p !in s.promoters && i !in s.locks && IsHead(s.db.items, i) { ClaimedKeeps(s, s', p, i); }
  }

  lemma LocksOf(s: State)
    requires Inv(s)
    ensures LocksOk(s) && forall d :: d in s.db.deployments ==> d in s.issued
  {
    hide LocksOk, PromotersOk, Committed;
  }

  lemma ClaimedLocks(s: State, s': State, p: PromoterId, i: ItemId)
    requires LocksOk(s) && p !in s.promoters && i !in s.locks
    requires s' == s.(promoters := s.promoters[p := Promoter(i, Holding)], locks := s.locks[i := p])
    ensures Moves(s, s', p) && OwnLocks(s, s', p) && HasLocks(s', p, Promoter(i, Holding))
  {
    assert Held(Promoter(i, Holding)) == {i} && Buffered(Promoter(i, Holding)).None?;
    hide Held, Buffered, BuffersIn;
  }

  lemma ClaimedKeeps(s: State, s': State, p: PromoterId, i: ItemId)
    requires Inv(s) && p !in s.promoters && i !in s.locks && IsHead(s.db.items, i)
    requires s' == s.(promoters := s.promoters[p := Promoter(i, Holding)], locks := s.locks[i := p])
    ensures Inv(s') && Keeps(s.db, s'.db)
  {
    hide Inv, SeesRows, HasLocks, Moves, OwnLocks, Keeps, LocksOk, IsHead;
    HeadSees(s.db, i);
    LocksOf(s);
    ClaimedLocks(s, s', p, i);
    MoveKeeps(s, s', p);
  }

  lemma HeadSees(db: Db, i: ItemId)
    requires IsHead(db.items, i)
    ensures SeesRows(db, Promoter(i, Holding)) && Held(Promoter(i, Holding)) == {i} && Buffered(Promoter(i, Holding)).None?
  {
  }

  lemma CheckKeeps(s: State, p: PromoterId)
    requires Inv(s) && p in s.promoters && s.promoters[p].item in s.db.items
    ensures Inv(StepPromoter(s, Check(p))) && Keeps(s.db, StepPromoter(s, Check(p)).db)
  {
    hide Inv, Keeps, SeesRows, HasLocks, Held, Halts;
    var q := s.promoters[p];
    KeepsItself(s.db);
    Sees(s, p);
    if q.phase.Holding? {
      if s.db.items[q.item].environment in s.db.executing { EndKeeps(s, p); }
      else if Halts(s.db, q.item) { SeesOne(s.db, q, Settling([q.item], Rejected)); GoKeeps(s, p, Settling([q.item], Rejected)); }
      else { SeesChecked(s.db, q); GoKeeps(s, p, Checked); }
    }
  }

  /** FindExpired and Dispatch change nothing but the phase. */
  lemma DecisionKeeps(s: State, e: Event)
    requires Inv(s) && (e.FindExpired? || e.Dispatch?) && e.p in s.promoters && s.promoters[e.p].item in s.db.items
    ensures Inv(StepPromoter(s, e)) && Keeps(s.db, StepPromoter(s, e).db)
  {
    hide Inv, Keeps, SeesRows, HasLocks, Held;
    var p := e.p;
    var q := s.promoters[p];
    KeepsItself(s.db);
    Sees(s, p);
    if e.FindExpired? && q.phase.Holding? { SeesOne(s.db, q, Settling([q.item], Expired)); GoKeeps(s, p, Settling([q.item], Expired)); }
    if e.Dispatch? && q.phase.Created? { SeesDispatch(s.db, q); GoKeeps(s, p, Settling([q.item], Dispatched(q.phase.deployment))); }
  }

  lemma CreatedLocks(s: State, s': State, p: PromoterId, d: DeploymentId, environment: Environment)
    requires LocksOk(s) && p in s.promoters && HasLocks(s, p, s.promoters[p]) && s.promoters[p].phase.Checked?
    requires s.promoters[p].item in s.db.items && s.db.items[s.promoters[p].item].environment == environment
    requires environment !in s.environmentLocks && d !in s.issued
    requires s' == Go(s.(environmentLocks := s.environmentLocks[environment := p], issued := s.issued[d := Some(s.promoters[p].item)]), p, Created(d))
    ensures Moves(s, s', p) && OwnLocks(s, s', p) && HasLocks(s', p, s'.promoters[p])
  {
    assert Held(s'.promoters[p]) == Held(s.promoters[p]) && Buffered(s.promoters[p]).None? && Buffered(s'.promoters[p]) == Some(d);
    hide Held, Buffered;
  }

  lemma CreateKeeps(s: State, p: PromoterId, d: DeploymentId)
    requires Inv(s) && p in s.promoters && s.promoters[p].item in s.db.items
    ensures Inv(StepCreate(s, p, d)) && Keeps(s.db, StepCreate(s, p, d).db)
  {
    hide Inv, Keeps, SeesRows, HasLocks, Moves, OwnLocks, LocksOk, IsHead;
    var s' := StepCreate(s, p, d);
    var q := s.promoters[p];
    KeepsItself(s.db);
    Sees(s, p);
    LocksOf(s);
    if q.phase.Checked? && s.db.items[q.item].environment !in s.environmentLocks && d !in s.issued
       && s.db.items[q.item].environment !in s.db.executing && IsHead(s.db.items, q.item)
    {
      SeesCreated(s.db, q, d);
      CreatedLocks(s, s', p, d, s.db.items[q.item].environment);
      MoveKeeps(s, s', p);
    }
  }

  /** Back at the savepoint the transaction has no Environment lock and nothing buffered; its row locks may have grown. */
  lemma BackLocks(s: State, s': State, p: PromoterId, phase: Phase, order: seq<ItemId>)
    requires LocksOk(s) && p in s.promoters && HasLocks(s, p, s.promoters[p])
    requires forall i :: i in order && i in s.locks ==> s.locks[i] == p
    requires var q' := s.promoters[p].(phase := phase); Held(q') == Held(s.promoters[p]) + (set i | i in order) && Buffered(q').None?
    requires s' == Go(s.(environmentLocks := Without(s.environmentLocks, p), locks := With(s.locks, order, p)), p, phase)
    ensures Moves(s, s', p) && OwnLocks(s, s', p) && HasLocks(s', p, s'.promoters[p])
  {
    hide Held, Buffered, BuffersIn;
  }

  /** The transaction, back at its savepoint, takes every waiting row of its Environment. */
  lemma TakesAllKeeps(s: State, s': State, p: PromoterId, order: seq<ItemId>)
    requires Inv(s) && p in s.promoters && s.promoters[p].item in s.db.items && !s.promoters[p].phase.Settling?
    requires TakesAll(s, p, s.db.items[s.promoters[p].item].environment, order)
    requires s' == Go(s.(environmentLocks := Without(s.environmentLocks, p), locks := With(s.locks, order, p)), p, Settling(order, Rejected))
    ensures Inv(s') && Keeps(s.db, s'.db)
  {
    hide Inv, Keeps, SeesRows, HasLocks, Moves, OwnLocks, LocksOk, Held, Buffered;
    Sees(s, p);
    SeesAll(s.db, s.promoters[p], order);
    LocksOf(s);
    BackLocks(s, s', p, Settling(order, Rejected), order);
    MoveKeeps(s, s', p);
  }

  /** Without a buffered Deployment a transaction has no Environment lock. */
  lemma NoEnvironmentLock(s: State, p: PromoterId)
    requires LocksOk(s) && p in s.promoters && Buffered(s.promoters[p]).None?
    ensures Without(s.environmentLocks, p) == s.environmentLocks
  {
  }

  lemma UnreconciledKeeps(s: State, p: PromoterId, order: seq<ItemId>)
    requires Inv(s) && p in s.promoters && s.promoters[p].item in s.db.items
    ensures var s' := StepPromoter(s, FindUnreconciled(p, order)); Inv(s') && Keeps(s.db, s'.db)
  {
    hide Inv, Keeps, TakesAll, Without, With;
    var s' := StepPromoter(s, FindUnreconciled(p, order));
    KeepsItself(s.db);
    NoEnvironmentLock'(s, p);
    if s.promoters[p].phase.Holding? && TakesAll(s, p, s.db.items[s.promoters[p].item].environment, order) { TakesAllKeeps(s, s', p, order); }
  }

  lemma NoEnvironmentLock'(s: State, p: PromoterId)
    requires Inv(s) && p in s.promoters
    ensures s.promoters[p].phase.Holding? ==> Without(s.environmentLocks, p) == s.environmentLocks
  {
    if s.promoters[p].phase.Holding? { NoEnvironmentLock(s, p); }
  }

  lemma FailsKeeps(s: State, p: PromoterId, error: CreationError, order: seq<ItemId>)
    requires Inv(s) && p in s.promoters && s.promoters[p].item in s.db.items
    ensures Inv(StepFails(s, p, error, order)) && Keeps(s.db, StepFails(s, p, error, order).db)
  {
    hide Inv, Keeps, TakesAll, Classify, Without, With;
    var q := s.promoters[p];
    var s' := StepFails(s, p, error, order);
    KeepsItself(s.db);
    if q.phase.Checked? || q.phase.Created? {
      match Classify(error)
      case RejectAll => if TakesAll(s, p, s.db.items[q.item].environment, order) { TakesAllKeeps(s, s', p, order); }
      case RejectItem => BackKeeps(s, s', p, Settling([q.item], Rejected));
      case RetryLater => BackKeeps(s, s', p, Deferring);
    }
  }

  lemma BackKeeps(s: State, s': State, p: PromoterId, phase: Phase)
    requires Inv(s) && p in s.promoters && !s.promoters[p].phase.Settling?
    requires phase == Deferring || phase == Settling([s.promoters[p].item], Rejected)
    requires s' == Go(s.(environmentLocks := Without(s.environmentLocks, p)), p, phase)
    ensures Inv(s') && Keeps(s.db, s'.db)
  {
    hide Inv, Keeps, SeesRows, HasLocks, Moves, OwnLocks, LocksOk, Held, Buffered;
    Sees(s, p);
    SeesOne(s.db, s.promoters[p], phase);
    LocksOf(s);
    assert With(s.locks, [], p) == s.locks && (set i: ItemId | i in []) == {};
    BackLocks(s, s', p, phase, []);
    MoveKeeps(s, s', p);
  }

  lemma KeepsItself(db: Db)
    ensures Keeps(db, db)
  {
  }

  // ---------------------------------------------------------------- committed rows change

  /** Open transactions tolerate new rows: their own items stay, and the head stays the head. */
  lemma RowsChange(s: State, s': State)
    requires Inv(s) && Committed(s'.db)
    requires s'.locks == s.locks && s'.environmentLocks == s.environmentLocks && s'.promoters == s.promoters
    requires forall d :: d in s.issued ==> d in s'.issued && s'.issued[d] == s.issued[d]
    requires forall d :: d in s'.db.deployments ==> d in s'.issued
    requires forall p :: p in s.promoters ==> SeesRows(s'.db, s.promoters[p])
    requires forall p :: p in s.promoters ==> SameEnvironment(s.db, s'.db, s.promoters[p].item)
    ensures Inv(s')
  {
    forall p | p in s'.promoters ensures HasLocks(s', p, s'.promoters[p]) {
      Sees(s, p);
      assert SameEnvironment(s.db, s'.db, s.promoters[p].item);
      hide Inv, SeesRows, Committed, LocksOk, PromotersOk, Held, Buffered;
    }
    LocksOf(s);
    RowsChangeLocks(s, s');
    hide SeesRows, Committed, LocksOk, HasLocks;
  }

  predicate SameEnvironment(db: Db, db': Db, i: ItemId) {
    i in db.items && i in db'.items && db.items[i].environment == db'.items[i].environment
  }

  lemma RowsChangeLocks(s: State, s': State)
    requires LocksOk(s) && s'.locks == s.locks && s'.environmentLocks == s.environmentLocks && s'.promoters == s.promoters
    requires forall p :: p in s.promoters ==> SameEnvironment(s.db, s'.db, s.promoters[p].item)
    ensures LocksOk(s')
  {
    hide Held, Buffered;
    forall e | e in s'.environmentLocks ensures BuffersIn(s'.db, s'.promoters[s'.environmentLocks[e]], e) {
      assert SameEnvironment(s.db, s'.db, s.promoters[s.environmentLocks[e]].item);
    }
  }

  // enqueue

  lemma EnqueueKeepsCommitted(db: Db, i: ItemId, environment: Environment, halt: bool)
    requires Committed(db) && i !in db.enqueued
    ensures Committed(Enqueued(db, i, environment, halt)) && Keeps(db, Enqueued(db, i, environment, halt))
  {
    hide Committed, Conserved, InOrder, ItemsOk, Paired, DeploymentsOk;
    var db' := Enqueued(db, i, environment, halt);
    CommittedParts(db);
    DeploymentsAlone(db, db');
    EnqueueConserves(db, i, environment, halt);
    EnqueueKeepsItems(db, i, environment, halt);
    PartsAre(db');
  }

  lemma EnqueueKeepsItems(db: Db, i: ItemId, environment: Environment, halt: bool)
    requires ItemsOk(db.items, db.enqueued, db.next) && InOrder(db.items, db.next, db.log) && i !in db.enqueued
    ensures var db' := Enqueued(db, i, environment, halt); ItemsOk(db'.items, db'.enqueued, db'.next) && InOrder(db'.items, db'.next, db'.log)
  {
  }

  lemma EnqueueConserves(db: Db, i: ItemId, environment: Environment, halt: bool)
    requires Conserved(db.items, db.enqueued, db.log) && i !in db.enqueued
    ensures var db' := Enqueued(db, i, environment, halt); Conserved(db'.items, db'.enqueued, db'.log)
  {
    var db' := Enqueued(db, i, environment, halt);
    forall j | j in db'.enqueued ensures Waiting(db'.items, j) != InLog(db'.log, j) {
      if j != i { assert Waiting(db'.items, j) == Waiting(db.items, j); }
    }
  }

  lemma EnqueueSeen(db: Db, i: ItemId, environment: Environment, halt: bool, q: Promoter)
    requires SeesRows(db, q) && ItemsOk(db.items, db.enqueued, db.next) && i !in db.enqueued
    ensures SeesRows(Enqueued(db, i, environment, halt), q) && SameEnvironment(db, Enqueued(db, i, environment, halt), q.item)
  {
    var db' := Enqueued(db, i, environment, halt);
    assert q.item in Held(q);
    forall j | j in Held(q) ensures Waiting(db'.items, j) { assert Waiting(db.items, j); }
    hide Held, Buffered;
    assert IsHead(db'.items, q.item) by {
      forall j | j in db'.items && WaitingIn(db'.items, j, db'.items[q.item].environment) ensures db'.items[q.item].number <= db'.items[j].number {
        assert j != i ==> WaitingIn(db.items, j, db.items[q.item].environment);
      }
    }
  }

  // settlement

  lemma EntriesAre(items: Items, log: seq<Settlement>, order: seq<ItemId>, outcome: Outcome, k: int)
    requires forall i :: i in order ==> i in items
    requires 0 <= k < |log| + |order|
    ensures var all := log + Entries(items, order, outcome);
            |all| == |log| + |order| && all[k] == if k < |log| then log[k]
              else Settlement(order[k - |log|], items[order[k - |log|]].environment, items[order[k - |log|]].number, outcome)
  {
  }

  lemma SettleInLog(items: Items, log: seq<Settlement>, order: seq<ItemId>, outcome: Outcome, i: ItemId)
    requires forall i :: i in order ==> i in items
    ensures InLog(log + Entries(items, order, outcome), i) <==> InLog(log, i) || i in order
  {
    var all := log + Entries(items, order, outcome);
    if InLog(all, i) { var k :| 0 <= k < |all| && all[k].item == i; EntriesAre(items, log, order, outcome, k); }
    if InLog(log, i) { var k :| 0 <= k < |log| && log[k].item == i; assert all[k].item == i; }
    if i in order { var k :| 0 <= k < |order| && order[k] == i; EntriesAre(items, log, order, outcome, |log| + k); assert all[|log| + k].item == i; }
  }

  lemma LoggedDoesNotWait(db: Db, k: nat)
    requires Conserved(db.items, db.enqueued, db.log) && k < |db.log|
    ensures db.log[k].item in db.enqueued && !Waiting(db.items, db.log[k].item)
  {
    assert InLog(db.log, db.log[k].item);
  }

  lemma SettleConserves(db: Db, order: seq<ItemId>, outcome: Outcome)
    requires Conserved(db.items, db.enqueued, db.log) && ItemsOk(db.items, db.enqueued, db.next)
    requires Distinct(order) && forall i :: i in order ==> i in db.items && Waiting(db.items, i)
    ensures var db' := SettleAll(db, order, outcome); Conserved(db'.items, db'.enqueued, db'.log)
  {
    var db' := SettleAll(db, order, outcome);
    forall i | i in db'.enqueued ensures Waiting(db'.items, i) != InLog(db'.log, i) {
      SettleInLog(db.items, db.log, order, outcome, i);
    }
    hide InLog;
    forall k | 0 <= k < |db'.log|
      ensures db'.log[k].item in db'.enqueued
      ensures db'.log[k].item in db'.items ==> db'.items[db'.log[k].item].state == Settled(db'.log[k].outcome)
    {
      EntriesAre(db.items, db.log, order, outcome, k);
      if k < |db.log| { LoggedDoesNotWait(db, k); }
    }
    forall j, k | 0 <= j < k < |db'.log| ensures db'.log[j].item != db'.log[k].item {
      EntriesAre(db.items, db.log, order, outcome, j);
      EntriesAre(db.items, db.log, order, outcome, k);
      if j < |db.log| { LoggedDoesNotWait(db, j); }
    }
  }

  lemma SettleKeepsOrder(db: Db, order: seq<ItemId>, outcome: Outcome)
    requires InOrder(db.items, db.next, db.log) && ItemsOk(db.items, db.enqueued, db.next)
    requires forall i :: i in order ==> i in db.items && Waiting(db.items, i)
    requires outcome.Dispatched? ==> |order| == 1 && IsHead(db.items, order[0])
    ensures var db' := SettleAll(db, order, outcome); InOrder(db'.items, db'.next, db'.log)
  {
    var db' := SettleAll(db, order, outcome);
    forall k | 0 <= k < |db'.log| ensures db'.log[k].number < db'.next { EntriesAre(db.items, db.log, order, outcome, k); }
    forall j, k | 0 <= j < k < |db'.log| && SameQueue(db'.log[j], db'.log[k]) ensures db'.log[j].number < db'.log[k].number {
      EntriesAre(db.items, db.log, order, outcome, j);
      EntriesAre(db.items, db.log, order, outcome, k);
      if k >= |db.log| { assert WaitingIn(db.items, order[0], db.log[j].environment); }
    }
    forall k, i | 0 <= k < |db'.log| && db'.log[k].outcome.Dispatched? && i in db'.items && WaitingIn(db'.items, i, db'.log[k].environment)
      ensures db'.log[k].number < db'.items[i].number
    {
      EntriesAre(db.items, db.log, order, outcome, k);
      assert WaitingIn(db.items, i, db'.log[k].environment) && i !in order;
    }
  }

  lemma SettleKeepsPairs(log: seq<Settlement>, more: seq<Settlement>, deployments: map<DeploymentId, Deployment>)
    requires Paired(log, deployments) && forall k :: 0 <= k < |more| ==> !more[k].outcome.Dispatched?
    ensures Paired(log + more, deployments)
  {
    var all := log + more;
    forall d | d in deployments && deployments[d].item.Some? ensures DispatchedAs(all, deployments[d].item.value, d) {
      var i := deployments[d].item.value;
      assert DispatchedAs(log, i, d);
      var k :| 0 <= k < |log| && log[k].item == i && log[k].outcome == Dispatched(d);
      assert all[k].item == i && all[k].outcome == Dispatched(d);
    }
  }

  lemma SettleKeepsItems(db: Db, order: seq<ItemId>, outcome: Outcome)
    requires ItemsOk(db.items, db.enqueued, db.next)
    requires forall i :: i in order ==> i in db.items && Waiting(db.items, i)
    ensures var db' := SettleAll(db, order, outcome); ItemsOk(db'.items, db'.enqueued, db'.next)
  {
  }

  lemma SettleKeepsCommitted(db: Db, order: seq<ItemId>, outcome: Outcome)
    requires Committed(db) && Distinct(order) && !outcome.Dispatched?
    requires forall i :: i in order ==> i in db.items && Waiting(db.items, i)
    ensures Committed(SettleAll(db, order, outcome)) && Keeps(db, SettleAll(db, order, outcome))
  {
    SettleConserves(db, order, outcome);
    SettleKeepsOrder(db, order, outcome);
    SettleKeepsPairs(db.log, Entries(db.items, order, outcome), db.deployments);
    SettleKeepsItems(db, order, outcome);
    var db' := SettleAll(db, order, outcome);
    hide Conserved, InOrder, Paired, ItemsOk;
    assert DeploymentsOk(db');
  }

  /** A settlement of rows that q has not locked leaves q what it saw. */
  lemma SettleSeen(db: Db, order: seq<ItemId>, outcome: Outcome, q: Promoter)
    requires SeesRows(db, q)
    requires forall i :: i in order ==> i in db.items && Waiting(db.items, i) && i !in Held(q)
    ensures SeesRows(SettleAll(db, order, outcome), q) && SameEnvironment(db, SettleAll(db, order, outcome), q.item)
  {
    var db' := SettleAll(db, order, outcome);
    assert q.item in Held(q);
    forall j | j in Held(q) ensures Waiting(db'.items, j) { assert Waiting(db.items, j); }
    hide Held, Buffered;
    assert IsHead(db'.items, q.item) by {
      forall j | j in db'.items && WaitingIn(db'.items, j, db'.items[q.item].environment) ensures db'.items[q.item].number <= db'.items[j].number {
        assert WaitingIn(db.items, j, db.items[q.item].environment);
      }
    }
    assert db'.items[q.item] == db.items[q.item];
    assert MayStart(db, q.item) ==> MayStart(db', q.item);
  }

  /** Cancel, sweep, and the commit of a promoter that has let go of its rows. */
  lemma SettleKeeps(s: State, order: seq<ItemId>, outcome: Outcome)
    requires Inv(s) && Distinct(order) && !outcome.Dispatched?
    requires forall i :: i in order ==> i in s.db.items && Waiting(s.db.items, i) && i !in s.locks
    ensures var s' := s.(db := SettleAll(s.db, order, outcome)); Inv(s') && Keeps(s.db, s'.db)
  {
    hide Inv, SeesRows, Committed, Keeps, LocksOk;
    var s' := s.(db := SettleAll(s.db, order, outcome));
    LocksOf(s);
    SettleKeepsCommitted'(s, order, outcome);
    forall p | p in s.promoters ensures SeesRows(s'.db, s.promoters[p]) && SameEnvironment(s.db, s'.db, s.promoters[p].item) {
      hide Inv, SeesRows, Committed, Keeps, LocksOk, SettleAll;
      Sees(s, p);
      SettleSeen(s.db, order, outcome, s.promoters[p]);
    }
    RowsChange(s, s');
  }

  lemma SettleKeepsCommitted'(s: State, order: seq<ItemId>, outcome: Outcome)
    requires Inv(s) && Distinct(order) && !outcome.Dispatched?
    requires forall i :: i in order ==> i in s.db.items && Waiting(s.db.items, i)
    ensures Committed(SettleAll(s.db, order, outcome)) && Keeps(s.db, SettleAll(s.db, order, outcome))
  {
    hide Committed, Keeps, LocksOk, PromotersOk;
    SettleKeepsCommitted(s.db, order, outcome);
  }

  lemma CommittedOf(s: State)
    requires Inv(s)
    ensures Committed(s.db) && ItemsOk(s.db.items, s.db.enqueued, s.db.next) && DeploymentsOk(s.db) && PromotersOk(s)
  {
    hide LocksOk, PromotersOk, Conserved, InOrder, Paired, ItemsOk, DeploymentsOk;
  }

  lemma EnqueueKeeps(s: State, i: ItemId, environment: Environment, halt: bool)
    requires Inv(s) && i !in s.db.enqueued
    ensures var s' := s.(db := Enqueued(s.db, i, environment, halt)); Inv(s') && Keeps(s.db, s'.db)
  {
    hide Inv, SeesRows, Committed, Keeps, LocksOk, ItemsOk;
    var s' := s.(db := Enqueued(s.db, i, environment, halt));
    CommittedOf(s);
    LocksOf(s);
    EnqueueKeepsCommitted(s.db, i, environment, halt);
    forall p | p in s.promoters ensures SeesRows(s'.db, s.promoters[p]) && SameEnvironment(s.db, s'.db, s.promoters[p].item) {
      Sees(s, p);
      EnqueueSeen(s.db, i, environment, halt, s.promoters[p]);
    }
    RowsChange(s, s');
  }

  // prune and defer

  /** Rows that no longer wait may go; a waiting row may count an attempt. */
  predicate SameWaiting(db: Db, db': Db) {
    && db' == db.(items := db'.items)
    && (forall i :: i in db'.items ==> i in db.items && db'.items[i] == db.items[i].(attempts := db'.items[i].attempts))
    && (forall i :: i in db.items && Waiting(db.items, i) ==> i in db'.items)
  }

  lemma SameWaitingCommitted(db: Db, db': Db)
    requires Committed(db) && SameWaiting(db, db')
    ensures Committed(db') && Keeps(db, db')
  {
    assert DeploymentsOk(db') && Paired(db'.log, db'.deployments) by { hide Conserved, InOrder, ItemsOk, Paired; }
    assert ItemsOk(db'.items, db'.enqueued, db'.next) by { hide Conserved, InOrder, Paired, DeploymentsOk; }
    assert InOrder(db'.items, db'.next, db'.log) by {
      hide Conserved, Paired, DeploymentsOk, ItemsOk;
      forall k, i | 0 <= k < |db'.log| && db'.log[k].outcome.Dispatched? && i in db'.items && WaitingIn(db'.items, i, db'.log[k].environment)
        ensures db'.log[k].number < db'.items[i].number
      {
        assert WaitingIn(db.items, i, db.log[k].environment);
      }
    }
    SameWaitingConserves(db, db');
  }

  lemma SameWaitingConserves(db: Db, db': Db)
    requires Conserved(db.items, db.enqueued, db.log) && SameWaiting(db, db')
    ensures Conserved(db'.items, db'.enqueued, db'.log)
  {
    forall i | i in db'.enqueued ensures Waiting(db'.items, i) != InLog(db'.log, i) {
      assert Waiting(db'.items, i) == Waiting(db.items, i);
    }
  }

  lemma SameWaitingSeen(db: Db, db': Db, q: Promoter)
    requires SeesRows(db, q) && SameWaiting(db, db')
    ensures SeesRows(db', q) && SameEnvironment(db, db', q.item)
  {
    assert q.item in Held(q);
    forall j | j in Held(q) ensures Waiting(db'.items, j) { assert Waiting(db.items, j); }
    hide Held, Buffered;
    assert IsHead(db'.items, q.item) by {
      forall j | j in db'.items && WaitingIn(db'.items, j, db'.items[q.item].environment) ensures db'.items[q.item].number <= db'.items[j].number {
        assert WaitingIn(db.items, j, db.items[q.item].environment);
      }
    }
    assert MayStart(db, q.item) ==> MayStart(db', q.item);
  }

  lemma SameWaitingKeeps(s: State, db': Db)
    requires Inv(s) && SameWaiting(s.db, db')
    ensures Inv(s.(db := db')) && Keeps(s.db, db')
  {
    hide Inv, SeesRows, Committed, Keeps, LocksOk;
    var s' := s.(db := db');
    CommittedOf(s);
    LocksOf(s);
    assert db'.deployments == s.db.deployments;
    SameWaitingCommitted(s.db, db');
    forall p | p in s.promoters ensures SeesRows(s'.db, s.promoters[p]) && SameEnvironment(s.db, s'.db, s.promoters[p].item) {
      Sees(s, p);
      SameWaitingSeen(s.db, db', s.promoters[p]);
    }
    RowsChange(s, s');
  }

  // Deployments end and are created

  lemma EndedKeepsCommitted(db: Db, d: DeploymentId, succeeded: bool)
    requires Committed(db) && d in db.deployments && db.deployments[d].status == Executing
    ensures Committed(Completed(db, d, succeeded)) && Keeps(db, Completed(db, d, succeeded))
  {
    var db' := Completed(db, d, succeeded);
    assert DeploymentsOk(db') by { hide Conserved, InOrder, ItemsOk, Paired; }
    assert Paired(db'.log, db'.deployments) by {
      hide Conserved, InOrder, ItemsOk, DispatchedAs;
    }
    hide Conserved, InOrder, ItemsOk, Paired, DeploymentsOk;
  }

  lemma EndedSeen(db: Db, d: DeploymentId, succeeded: bool, q: Promoter)
    requires SeesRows(db, q) && DeploymentsOk(db) && d in db.deployments && db.deployments[d].status == Executing
    ensures SeesRows(Completed(db, d, succeeded), q) && SameEnvironment(db, Completed(db, d, succeeded), q.item)
  {
    var db' := Completed(db, d, succeeded);
    assert q.item in Held(q);
    assert MayStart(db, q.item) ==> MayStart(db', q.item);
    hide Held, Buffered, MayStart, DeploymentsOk;
  }

  lemma EndedKeeps(s: State, d: DeploymentId, succeeded: bool)
    requires Inv(s) && d in s.db.deployments && s.db.deployments[d].status == Executing
    ensures var s' := s.(db := Completed(s.db, d, succeeded)); Inv(s') && Keeps(s.db, s'.db)
  {
    hide Inv, SeesRows, Committed, Keeps, LocksOk, DeploymentsOk;
    var s' := s.(db := Completed(s.db, d, succeeded));
    CommittedOf(s);
    LocksOf(s);
    EndedKeepsCommitted(s.db, d, succeeded);
    forall p | p in s.promoters ensures SeesRows(s'.db, s.promoters[p]) && SameEnvironment(s.db, s'.db, s.promoters[p].item) {
      Sees(s, p);
      EndedSeen(s.db, d, succeeded, s.promoters[p]);
    }
    RowsChange(s, s');
  }

  lemma InsertKeepsDeployments(db: Db, d: DeploymentId, environment: Environment, plan: bool, item: Option<ItemId>)
    requires DeploymentsOk(db) && d !in db.deployments && environment !in db.executing
    ensures DeploymentsOk(Insert(db, d, environment, plan, item))
  {
  }

  /** A Deployment starts in an Environment; q works elsewhere, or nothing but a plan starts under an item that q has not buffered. */
  lemma InsertSeen(db: Db, d: DeploymentId, environment: Environment, plan: bool, item: Option<ItemId>, q: Promoter)
    requires SeesRows(db, q) && DeploymentsOk(db) && d !in db.deployments && environment !in db.executing
    requires Buffered(q) != Some(d)
    requires db.items[q.item].environment == environment ==> plan && Buffered(q).None?
    ensures SeesRows(Insert(db, d, environment, plan, item), q) && SameEnvironment(db, Insert(db, d, environment, plan, item), q.item)
  {
    var db' := Insert(db, d, environment, plan, item);
    assert q.item in Held(q);
    assert MayStart(db, q.item) ==> MayStart(db', q.item);
    hide Held, Buffered, MayStart, DeploymentsOk;
  }

  lemma DirectKeepsCommitted(db: Db, d: DeploymentId, environment: Environment, plan: bool)
    requires Committed(db) && d !in db.deployments && environment !in db.executing
    ensures Committed(Insert(db, d, environment, plan, None)) && Keeps(db, Insert(db, d, environment, plan, None))
  {
    hide Committed, Conserved, InOrder, ItemsOk, Paired, DeploymentsOk;
    CommittedParts(db);
    InsertKeepsDeployments(db, d, environment, plan, None);
    DirectKeepsPairs(db.log, db.deployments, d, Deployment(environment, plan, Executing, None));
    PartsAre(Insert(db, d, environment, plan, None));
  }

  lemma DirectKeepsPairs(log: seq<Settlement>, deployments: map<DeploymentId, Deployment>, d: DeploymentId, created: Deployment)
    requires Paired(log, deployments) && d !in deployments && created.item.None?
    ensures Paired(log, deployments[d := created])
  {
    hide DispatchedAs;
  }

  lemma DirectKeeps(s: State, environment: Environment, plan: bool, d: DeploymentId)
    requires Inv(s) && d !in s.issued && environment !in s.environmentLocks && environment !in s.db.executing
    requires plan || forall i :: i in s.db.items ==> !WaitingIn(s.db.items, i, environment)
    ensures var s' := s.(issued := s.issued[d := None], db := Insert(s.db, d, environment, plan, None)); Inv(s') && Keeps(s.db, s'.db)
  {
    hide Inv, Committed, Keeps, LocksOk, DeploymentsOk, ItemsOk, SeesRows, HasLocks, Held, Buffered;
    var s' := s.(issued := s.issued[d := None], db := Insert(s.db, d, environment, plan, None));
    CommittedOf(s);
    LocksOf(s);
    DirectKeepsCommitted(s.db, d, environment, plan);
    forall p | p in s.promoters ensures SeesRows(s'.db, s.promoters[p]) && SameEnvironment(s.db, s'.db, s.promoters[p].item) {
      Sees(s, p);
      HeldWaits(s.db, s.promoters[p]);
      BufferedHasLock(s, p);
      InsertSeen(s.db, d, environment, plan, None, s.promoters[p]);
    }
    RowsChange(s, s');
  }

  lemma BufferedHasLock(s: State, p: PromoterId)
    requires p in s.promoters && HasLocks(s, p, s.promoters[p])
    ensures var q := s.promoters[p];
            Buffered(q).Some? ==> (Buffered(q).value in s.issued && s.issued[Buffered(q).value] == Some(q.item)
                                   && q.item in s.db.items && s.db.items[q.item].environment in s.environmentLocks)
  {
    hide Held, Buffered;
  }

  lemma HeldWaits(db: Db, q: Promoter)
    requires SeesRows(db, q)
    ensures Waiting(db.items, q.item)
  {
    assert q.item in Held(q);
  }

  // a promotion commits

  lemma DispatchPairs(log: seq<Settlement>, entry: Settlement, deployments: map<DeploymentId, Deployment>, created: Deployment)
    requires Paired(log, deployments) && entry.outcome.Dispatched? && entry.outcome.deployment !in deployments && created.item == Some(entry.item)
    ensures Paired(log + [entry], deployments[entry.outcome.deployment := created])
  {
    var all, after := log + [entry], deployments[entry.outcome.deployment := created];
    forall d | d in after && after[d].item.Some? ensures DispatchedAs(all, after[d].item.value, d) {
      var i := after[d].item.value;
      if d == entry.outcome.deployment {
        assert all[|log|] == entry;
      } else {
        assert DispatchedAs(log, i, d);
        var k :| 0 <= k < |log| && log[k].item == i && log[k].outcome == Dispatched(d);
        assert all[k].item == i && all[k].outcome == Dispatched(d);
      }
    }
  }

  function DispatchedDb(db: Db, i: ItemId, d: DeploymentId): Db
    requires Waiting(db.items, i)
  {
    Insert(SettleAll(db, [i], Dispatched(d)), d, db.items[i].environment, false, Some(i))
  }

  lemma DispatchKeepsCommitted(db: Db, i: ItemId, d: DeploymentId)
    requires Committed(db) && IsHead(db.items, i) && d !in db.deployments && db.items[i].environment !in db.executing
    ensures Committed(DispatchedDb(db, i, d)) && Keeps(db, DispatchedDb(db, i, d))
  {
    hide Committed, Conserved, InOrder, Paired, ItemsOk, DeploymentsOk, Keeps, IsHead;
    HeadWaits(db, i);
    var settled := SettleAll(db, [i], Dispatched(d));
    var db' := DispatchedDb(db, i, d);
    CommittedParts(db);
    SettleConserves(db, [i], Dispatched(d));
    SettleKeepsOrder(db, [i], Dispatched(d));
    SettleKeepsItems(db, [i], Dispatched(d));
    DeploymentsAlone(db, settled);
    InsertKeepsDeployments(settled, d, db.items[i].environment, false, Some(i));
    var entry := Settlement(i, db.items[i].environment, db.items[i].number, Dispatched(d));
    assert Entries(db.items, [i], Dispatched(d)) == [entry];
    DispatchPairs(db.log, entry, db.deployments, Deployment(db.items[i].environment, false, Executing, Some(i)));
    PartsAre(db');
    InsertGrows(db, settled, db', d);
  }

  lemma CommittedParts(db: Db)
    requires Committed(db)
    ensures DeploymentsOk(db) && ItemsOk(db.items, db.enqueued, db.next) && Conserved(db.items, db.enqueued, db.log)
    ensures Paired(db.log, db.deployments) && InOrder(db.items, db.next, db.log)
  {
    hide DeploymentsOk, ItemsOk, Conserved, Paired, InOrder;
  }

  lemma PartsAre(db: Db)
    requires DeploymentsOk(db) && ItemsOk(db.items, db.enqueued, db.next) && Conserved(db.items, db.enqueued, db.log)
    requires Paired(db.log, db.deployments) && InOrder(db.items, db.next, db.log)
    ensures Committed(db)
  {
    hide DeploymentsOk, ItemsOk, Conserved, Paired, InOrder;
  }

  lemma HeadWaits(db: Db, i: ItemId)
    requires IsHead(db.items, i)
    ensures Waiting(db.items, i)
  {
  }

  lemma DeploymentsAlone(db: Db, db': Db)
    requires DeploymentsOk(db) && db'.deployments == db.deployments && db'.executing == db.executing && db'.heads == db.heads
    ensures DeploymentsOk(db')
  {
  }

  lemma InsertGrows(db: Db, settled: Db, db': Db, d: DeploymentId)
    requires db.log <= settled.log && settled.log == db'.log && db.enqueued == db'.enqueued && d !in db.deployments
    requires db'.deployments.Keys == db.deployments.Keys + {d} && forall c :: c in db.deployments ==> db'.deployments[c] == db.deployments[c]
    ensures Keeps(db, db')
  {
  }

  /** Another promoter works on another Environment and has another identifier. */
  lemma DispatchSeen(db: Db, i: ItemId, d: DeploymentId, q: Promoter)
    requires SeesRows(db, q) && DeploymentsOk(db) && Waiting(db.items, i) && i !in Held(q)
    requires d !in db.deployments && db.items[i].environment !in db.executing && Buffered(q) != Some(d)
    requires q.item in db.items && db.items[q.item].environment != db.items[i].environment
    ensures SeesRows(DispatchedDb(db, i, d), q) && SameEnvironment(db, DispatchedDb(db, i, d), q.item)
  {
    var settled := SettleAll(db, [i], Dispatched(d));
    hide SeesRows, DeploymentsOk, Held, Buffered;
    DeploymentsAlone(db, settled);
    SettleSeen(db, [i], Dispatched(d), q);
    InsertSeen(settled, d, db.items[i].environment, false, Some(i), q);
  }

  /** The facts a promoter about to dispatch has established. */
  lemma DispatchReady(s: State, p: PromoterId, d: DeploymentId)
    requires Inv(s) && p in s.promoters && s.promoters[p].phase.Settling? && s.promoters[p].phase.outcome == Dispatched(d)
    ensures var i := s.promoters[p].item;
            && IsHead(s.db.items, i) && s.promoters[p].phase.order == [i] && i in s.locks && s.locks[i] == p
            && d !in s.db.deployments && d in s.issued && s.issued[d] == Some(i) && s.db.items[i].environment !in s.db.executing && !Halts(s.db, i)
  {
    hide Inv, IsHead, Halts;
    var q := s.promoters[p];
    Sees(s, p);
    assert q.item in Held(q) && Buffered(q) == Some(d);
  }

  lemma DispatchKeeps(s: State, p: PromoterId, d: DeploymentId)
    requires Inv(s) && p in s.promoters && s.promoters[p].phase.Settling? && s.promoters[p].phase.outcome == Dispatched(d)
    requires Waiting(s.db.items, s.promoters[p].item)
    ensures var s' := End(s, p).(db := DispatchedDb(s.db, s.promoters[p].item, d)); Inv(s') && Keeps(s.db, s'.db)
  {
    hide Inv, Committed, Keeps, LocksOk, DeploymentsOk, ItemsOk, SeesRows, HasLocks, Held, Buffered, IsHead, Halts, PromotersOk;
    var i := s.promoters[p].item;
    var s1 := End(s, p);
    var s' := s1.(db := DispatchedDb(s.db, i, d));
    DispatchReady(s, p, d);
    EndKeeps(s, p);
    CommittedOf(s);
    LocksOf(s1);
    DispatchKeepsCommitted(s.db, i, d);
    forall r | r in s1.promoters ensures SeesRows(s'.db, s1.promoters[r]) && SameEnvironment(s.db, s'.db, s1.promoters[r].item) {
      Sees(s, r);
      HeldWaits(s.db, s.promoters[r]);
      BufferedHasLock(s, r);
      HeldHasLock(s, r, i);
      if s.db.items[s.promoters[r].item].environment == s.db.items[i].environment { OnePromoterPerEnvironment(s, p, r); }
      DispatchSeen(s.db, i, d, s.promoters[r]);
    }
    RowsChange(s1, s');
  }

  lemma HeldHasLock(s: State, p: PromoterId, i: ItemId)
    requires p in s.promoters && HasLocks(s, p, s.promoters[p])
    ensures i in Held(s.promoters[p]) ==> i in s.locks && s.locks[i] == p
    ensures s.promoters[p].item in Held(s.promoters[p])
  {
  }

  lemma CommitKeeps(s: State, p: PromoterId)
    requires Inv(s) && p in s.promoters && s.promoters[p].item in s.db.items
    ensures Inv(StepCommit(s, p)) && Keeps(s.db, StepCommit(s, p).db)
  {
    hide Inv, Keeps, SeesRows, HasLocks, SettleAll, Insert;
    var q := s.promoters[p];
    KeepsItself(s.db);
    if q.phase.Deferring? && Waiting(s.db.items, q.item) {
      EndKeeps(s, p);
      SameWaitingKeeps(End(s, p), Defer(s.db, q.item));
    } else if q.phase.Settling? && forall i :: i in q.phase.order ==> i in s.db.items && Waiting(s.db.items, i) {
      if q.phase.outcome.Dispatched? {
        DispatchReady(s, p, q.phase.outcome.deployment);
        DispatchKeeps(s, p, q.phase.outcome.deployment);
      } else {
        EndKeeps(s, p);
        LetsGo(s, p);
        SettleKeeps(End(s, p), q.phase.order, q.phase.outcome);
      }
    }
  }

  lemma LetsGo(s: State, p: PromoterId)
    requires Inv(s) && p in s.promoters && s.promoters[p].phase.Settling?
    ensures var order := s.promoters[p].phase.order; Distinct(order) && forall i :: i in order ==> i !in End(s, p).locks
  {
    hide Inv, IsHead, MayStart;
    Sees(s, p);
    forall i | i in s.promoters[p].phase.order ensures i !in End(s, p).locks {
      assert i in Held(s.promoters[p]);
    }
  }

  lemma PromoterStepKeeps(s: State, e: Event)
    requires Inv(s)
    requires e.FindExpired? || e.FindUnreconciled? || e.Check? || e.Create? || e.CreationFails? || e.Dispatch? || e.Commit? || e.Abort?
    requires e.p in s.promoters && s.promoters[e.p].item in s.db.items
    ensures Inv(StepPromoter(s, e)) && Keeps(s.db, StepPromoter(s, e).db)
  {
    hide Inv, Keeps, Go, Halts, TakesAll, StepCreate, StepFails, StepCommit, End;
    match e
    case FindExpired(_) => DecisionKeeps(s, e);
    case Dispatch(_) => DecisionKeeps(s, e);
    case Check(p) => CheckKeeps(s, p);
    case FindUnreconciled(p, order) => UnreconciledKeeps(s, p, order);
    case Create(p, d) => CreateKeeps(s, p, d);
    case CreationFails(p, error, order) => FailsKeeps(s, p, error, order);
    case Commit(p) => CommitKeeps(s, p);
    case Abort(p) => EndKeeps(s, p);
  }

  lemma DeletedAreWaiting(s: State, environment: Environment, order: seq<ItemId>)
    requires Deletable(s, environment, order)
    ensures Distinct(order) && forall i :: i in order ==> i in s.db.items && Waiting(s.db.items, i) && i !in s.locks
  {
  }

  lemma NobodyWaits(s: State, environment: Environment, order: seq<ItemId>)
    requires Deletable(s, environment, order) && forall i :: i in order ==> i in s.db.items && Waiting(s.db.items, i)
    ensures var db := SettleAll(s.db, order, Deleted); SameWaiting(db, WithoutRows(db, environment))
  {
  }

  lemma DeleteKeeps(s: State, environment: Environment, order: seq<ItemId>)
    requires Inv(s) && Deletable(s, environment, order)
    ensures var s' := Step(s, DeleteEnvironment(environment, order)); Inv(s') && Keeps(s.db, s'.db)
  {
    hide Inv, Keeps, Deletable, SettleAll, WithoutRows;
    DeletedAreWaiting(s, environment, order);
    SettleKeeps(s, order, Deleted);
    NobodyWaits(s, environment, order);
    var s1 := s.(db := SettleAll(s.db, order, Deleted));
    SameWaitingKeeps(s1, WithoutRows(s1.db, environment));
    KeepsOn(s.db, s1.db, WithoutRows(s1.db, environment));
  }

  /** Every step of every transaction keeps the invariant and takes nothing back. */
  lemma StepKeeps(s: State, e: Event)
    requires Inv(s)
    ensures Inv(Step(s, e)) && Keeps(s.db, Step(s, e).db)
  {
    hide Inv, Keeps, SettleAll, StepPromoter, Enqueued, Insert, Completed, IsHead, Deletable, WithoutRows;
    KeepsItself(s.db);
    match e
    case Enqueue(i, environment, halt) =>
      if i !in s.db.enqueued && environment !in s.environmentLocks { EnqueueKeeps(s, i, environment, halt); }
    case Cancel(i) => if Waiting(s.db.items, i) && i !in s.locks { SettleKeeps(s, [i], Cancelled); }
    case Sweep(i) => if Waiting(s.db.items, i) && i !in s.locks { SettleKeeps(s, [i], Expired); }
    case Prune(i) => if i in s.db.items && s.db.items[i].state.Settled? { SameWaitingKeeps(s, s.db.(items := s.db.items - {i})); }
    case DeleteEnvironment(environment, order) => if Deletable(s, environment, order) { DeleteKeeps(s, environment, order); }
    case Direct(environment, plan, d) =>
      if d !in s.issued && environment !in s.environmentLocks && environment !in s.db.executing
         && !(!plan && exists i :: i in s.db.items && WaitingIn(s.db.items, i, environment))
      {
        DirectKeeps(s, environment, plan, d);
      }
    case Ended(d, succeeded) => if d in s.db.deployments && s.db.deployments[d].status == Executing { EndedKeeps(s, d, succeeded); }
    case Claim(p, i) => ClaimKeeps(s, p, i);
    case _ => if e.p in s.promoters && s.promoters[e.p].item in s.db.items { PromoterStepKeeps(s, e); }
  }

  lemma {:induction false} RunKeeps(s: State, events: seq<Event>)
    requires Inv(s)
    ensures Inv(Run(s, events)) && Keeps(s.db, Run(s, events).db)
    decreases |events|
  {
    hide Inv, Keeps, Step;
    KeepsItself(s.db);
    if events != [] {
      var s1 := Step(s, events[0]);
      StepKeeps(s, events[0]);
      RunKeeps(s1, events[1..]);
      KeepsOn(s.db, s1.db, Run(s1, events[1..]).db);
    }
  }

  lemma KeepsOn(a: Db, b: Db, c: Db)
    requires Keeps(a, b) && Keeps(b, c)
    ensures Keeps(a, c)
  {
  }

  lemma Reachable(events: seq<Event>)
    ensures Inv(After(events)) && Committed(After(events).db)
  {
    RunKeeps(Initial, events);
    hide Conserved, InOrder, Paired, ItemsOk, DeploymentsOk, LocksOk, PromotersOk;
  }

  // ---------------------------------------------------------------- theorems

  /**
   Over every run, each item leaves the queue at most once: it waits or is in the log, never both, its log entry is the
   only one, and no later step changes it or lets it wait again, even after its row was pruned or went with its Environment.
   */
  lemma ItemLeavesOnce(before: seq<Event>, more: seq<Event>, i: ItemId)
    requires i in After(before).db.enqueued
    ensures var db, db' := After(before).db, Run(After(before), more).db;
            && (Waiting(db.items, i) <==> !InLog(db.log, i))
            && (Waiting(db'.items, i) <==> !InLog(db'.log, i))
            && (forall k :: 0 <= k < |db.log| && db.log[k].item == i ==>
                  !Waiting(db'.items, i) && k < |db'.log| && db'.log[k] == db.log[k] && forall j :: 0 <= j < |db'.log| && db'.log[j].item == i ==> j == k)
  {
    Reachable(before);
    var s, s' := After(before), Run(After(before), more);
    RunKeeps(s, more);
    hide Inv;
    CommittedOf(s');
    CommittedParts(s.db);
    CommittedParts(s'.db);
    hide InOrder, Paired, ItemsOk, DeploymentsOk, PromotersOk;
    forall k | 0 <= k < |s.db.log| && s.db.log[k].item == i ensures s'.db.log[k] == s.db.log[k] && InLog(s'.db.log, i) {
      assert s'.db.log[k].item == i;
    }
  }

  /** Dispatched items and Deployments created by promotion correspond one to one. */
  lemma DispatchedItemsAreDeployments(events: seq<Event>, i: ItemId, d: DeploymentId)
    ensures var db := After(events).db;
            DispatchedAs(db.log, i, d) <==> d in db.deployments && db.deployments[d].item == Some(i)
    ensures var db := After(events).db;
            forall d' :: DispatchedAs(db.log, i, d) && DispatchedAs(db.log, i, d') ==> d == d'
    ensures var db := After(events).db;
            forall i' :: DispatchedAs(db.log, i, d) && DispatchedAs(db.log, i', d) ==> i == i'
  {
    Reachable(events);
    var db := After(events).db;
    CommittedParts(db);
    hide Inv, Committed, InOrder, ItemsOk, DeploymentsOk, PromotersOk;
  }

  /** An item that waits (also after a deferred attempt) or was rejected, cancelled, expired or deleted has no Deployment. */
  lemma UndispatchedItemsLeaveNoDeployment(events: seq<Event>, i: ItemId, d: DeploymentId)
    requires var db := After(events).db;
             Waiting(db.items, i) || exists k :: 0 <= k < |db.log| && db.log[k].item == i && !db.log[k].outcome.Dispatched?
    ensures var db := After(events).db; d in db.deployments ==> db.deployments[d].item != Some(i)
  {
    Reachable(events);
    var db := After(events).db;
    CommittedParts(db);
    hide Inv, Committed, InOrder, DeploymentsOk, PromotersOk;
    assert DispatchedAs(db.log, i, d) ==> InLog(db.log, i);
  }

  /** First in, first out: the dispatches of one Environment come in the order of enqueueing, and ahead of everything that still waits. */
  lemma PromotionIsFifo(events: seq<Event>, j: nat, k: nat)
    requires var log := After(events).db.log; j < |log| && k < |log| && SameQueue(log[j], log[k])
    ensures var log := After(events).db.log; j < k <==> log[j].number < log[k].number
    ensures var db := After(events).db;
            forall i :: i in db.items && WaitingIn(db.items, i, db.log[k].environment) ==> db.log[k].number < db.items[i].number
  {
    Reachable(events);
    CommittedParts(After(events).db);
    hide Inv, Committed, Conserved, Paired, ItemsOk, DeploymentsOk, PromotersOk;
  }

  /** A halt_on_failure item is never dispatched behind a predecessor that failed while it waited, and never into an Environment with a running Deployment. */
  lemma HaltedItemIsNotDispatched(events: seq<Event>, p: PromoterId, i: ItemId, d: DeploymentId)
    requires var s := After(events);
             !DispatchedAs(s.db.log, i, d) && DispatchedAs(Step(s, Commit(p)).db.log, i, d)
    ensures var s := After(events); IsHead(s.db.items, i) && !Halts(s.db, i) && s.db.items[i].environment !in s.db.executing
  {
    Reachable(events);
    var s := After(events);
    var s' := Step(s, Commit(p));
    hide Inv, Committed, IsHead, Halts;
    var q := s.promoters[p];
    assert q.phase.Settling?;
    if q.phase.outcome.Dispatched? { DispatchReady(s, p, q.phase.outcome.deployment); }
    var k :| 0 <= k < |s'.db.log| && s'.db.log[k].item == i && s'.db.log[k].outcome == Dispatched(d);
    EntriesAre(s.db.items, s.db.log, q.phase.order, q.phase.outcome, k);
  }

  /** One Deployment runs in an Environment at a time. */
  lemma OneDeploymentAtATime(events: seq<Event>, d: DeploymentId, d': DeploymentId)
    requires var m := After(events).db.deployments;
             d in m && d' in m && m[d].status == Executing && m[d'].status == Executing && m[d].environment == m[d'].environment
    ensures d == d'
  {
    Reachable(events);
    CommittedParts(After(events).db);
  }

  // ---------------------------------------------------------------- what an undisturbed promotion does

  /** The head may be promoted by p: nobody holds it, and its Environment is idle and unlocked. */
  predicate Promotable(s: State, p: PromoterId, i: ItemId) {
    && p !in s.promoters && IsHead(s.db.items, i) && i !in s.locks && !Halts(s.db, i)
    && s.db.items[i].environment !in s.db.executing && s.db.items[i].environment !in s.environmentLocks
  }

  /** Claim and Check leave the rows alone and the promoter ready to create. */
  lemma ClaimAndCheck(s: State, p: PromoterId, i: ItemId)
    requires Promotable(s, p, i)
    ensures Step(Step(s, Claim(p, i)), Check(p)) == s.(promoters := s.promoters[p := Promoter(i, Checked)], locks := s.locks[i := p])
  {
    HeadWaits(s.db, i);
    hide IsHead, Halts, StepCreate, StepFails, StepCommit, End, SettleAll, Insert;
    var s1 := Step(s, Claim(p, i));
    assert s1.promoters[p] == Promoter(i, Holding) && s1.db == s.db;
    assert s1.promoters[p := Promoter(i, Checked)] == s.promoters[p := Promoter(i, Checked)];
  }

  lemma OneSettlement(db: Db, i: ItemId, outcome: Outcome)
    requires Waiting(db.items, i)
    ensures var db' := SettleAll(db, [i], outcome);
            && db'.log == db.log + [Settlement(i, db.items[i].environment, db.items[i].number, outcome)]
            && db'.items == db.items[i := db.items[i].(state := Settled(outcome))]
            && db'.deployments == db.deployments && db'.executing == db.executing && db'.heads == db.heads
  {
    assert Entries(db.items, [i], outcome) == [Settlement(i, db.items[i].environment, db.items[i].number, outcome)];
  }

  /** An undisturbed promotion of a promotable head turns it into a running Deployment that heads the Environment, and lets everything go. */
  lemma UndisturbedPromotionDispatches(s: State, p: PromoterId, i: ItemId, d: DeploymentId)
    requires Promotable(s, p, i) && d !in s.issued
    ensures var s' := Run(s, [Claim(p, i), Check(p), Create(p, d), Dispatch(p), Commit(p)]); var e := s.db.items[i].environment;
            && s'.db.log == s.db.log + [Settlement(i, e, s.db.items[i].number, Dispatched(d))]
            && s'.db.items == s.db.items[i := s.db.items[i].(state := Settled(Dispatched(d)))]
            && s'.db.deployments == s.db.deployments[d := Deployment(e, false, Executing, Some(i))]
            && s'.db.executing == s.db.executing[e := d] && s'.db.heads == s.db.heads[e := d]
            && p !in s'.promoters && i !in s'.locks && e !in s'.environmentLocks
  {
    ClaimAndCheck(s, p, i);
    HeadWaits(s.db, i);
    OneSettlement(s.db, i, Dispatched(d));
    hide Step, IsHead, Halts, SettleAll, Promotable;
    var s2 := Step(Step(s, Claim(p, i)), Check(p));
    CreateAndDispatch(s, s2, p, i, d);
    RunThree(s2, Create(p, d), Dispatch(p), Commit(p));
    RunTwoMore(s, Claim(p, i), Check(p), [Create(p, d), Dispatch(p), Commit(p)]);
    assert [Claim(p, i), Check(p)] + [Create(p, d), Dispatch(p), Commit(p)] == [Claim(p, i), Check(p), Create(p, d), Dispatch(p), Commit(p)];
  }

  lemma CreateAndDispatch(s: State, s2: State, p: PromoterId, i: ItemId, d: DeploymentId)
    requires Promotable(s, p, i) && d !in s.issued && Waiting(s.db.items, i)
    requires s2 == s.(promoters := s.promoters[p := Promoter(i, Checked)], locks := s.locks[i := p])
    ensures var s' := Step(Step(Step(s2, Create(p, d)), Dispatch(p)), Commit(p)); var e := s.db.items[i].environment;
            && s'.db == Insert(SettleAll(s.db, [i], Dispatched(d)), d, e, false, Some(i))
            && p !in s'.promoters && i !in s'.locks && e !in s'.environmentLocks
  {
    var e := s.db.items[i].environment;
    var s3 := Step(s2, Create(p, d));
    var s4 := Step(s3, Dispatch(p));
    assert s3 == s2.(environmentLocks := s2.environmentLocks[e := p], issued := s2.issued[d := Some(i)], promoters := s2.promoters[p := Promoter(i, Created(d))]) by {
      hide IsHead, Halts, SettleAll, Insert, StepFails, StepCommit, End;
    }
    assert s4 == s3.(promoters := s3.promoters[p := Promoter(i, Settling([i], Dispatched(d)))]) by {
      hide IsHead, Halts, SettleAll, Insert, StepCreate, StepFails, StepCommit, End;
    }
    hide IsHead, Halts, SettleAll, Insert, Promotable, StepCreate, StepFails;
    CommitAlone(s4, p, i, Dispatched(d));
  }

  /** Committing the settlement of one row applies it and drops every lock of the transaction. */
  lemma CommitAlone(s: State, p: PromoterId, i: ItemId, outcome: Outcome)
    requires p in s.promoters && s.promoters[p] == Promoter(i, Settling([i], outcome)) && Waiting(s.db.items, i)
    ensures var s' := Step(s, Commit(p));
            && s' == End(s, p).(db := s'.db) && p !in s'.promoters
            && (forall k :: k in s'.locks ==> s'.locks[k] != p) && (forall k :: k in s'.environmentLocks ==> s'.environmentLocks[k] != p)
            && s'.db == if outcome.Dispatched? then Insert(SettleAll(s.db, [i], outcome), outcome.deployment, s.db.items[i].environment, false, Some(i))
                        else SettleAll(s.db, [i], outcome)
  {
    hide SettleAll, Insert, IsHead, Halts;
    assert StepPromoter(s, Commit(p)) == StepCommit(s, p);
  }

  lemma RunThree(s: State, a: Event, b: Event, c: Event)
    ensures Run(s, [a, b, c]) == Step(Step(Step(s, a), b), c)
  {
    hide Step;
    RunTwoMore(s, a, b, [c]);
    assert [a, b] + [c] == [a, b, c] && [c][1..] == [];
    assert Run(Step(Step(s, a), b), [c]) == Run(Step(Step(Step(s, a), b), c), []);
  }

  lemma RunTwoMore(s: State, a: Event, b: Event, more: seq<Event>)
    ensures Run(s, [a, b] + more) == Run(Step(Step(s, a), b), more)
  {
    hide Step;
    assert ([a, b] + more)[1..] == [b] + more && ([b] + more)[1..] == more;
    assert Run(Step(s, a), [b] + more) == Run(Step(Step(s, a), b), more);
  }

  /**
   A failed creation, with no unreconciled outcome behind it, settles the item as rejected if the error is about its request, and else only
   counts the attempt and lets it wait; either way no Deployment stays and no other item changes.
   */
  lemma FailedPromotionLeavesNothing(s: State, p: PromoterId, i: ItemId, error: CreationError)
    requires Promotable(s, p, i) && !error.unreconciled
    ensures var s' := Run(s, [Claim(p, i), Check(p)] + [CreationFails(p, error, []), Commit(p)]); var item := s.db.items[i];
            && s'.db.deployments == s.db.deployments && s'.db.executing == s.db.executing && p !in s'.promoters && i !in s'.locks
            && (AboutRequest(error) ==>
                  s'.db.log == s.db.log + [Settlement(i, item.environment, item.number, Rejected)] && s'.db.items == s.db.items[i := item.(state := Settled(Rejected))])
            && (!AboutRequest(error) ==> s'.db.log == s.db.log && s'.db.items == s.db.items[i := item.(attempts := item.attempts + 1)])
  {
    ClaimAndCheck(s, p, i);
    HeadWaits(s.db, i);
    OneSettlement(s.db, i, Rejected);
    VerdictsAre(error);
    hide Step, IsHead, Halts, SettleAll, Promotable, Classify, AboutRequest;
    var s2 := Step(Step(s, Claim(p, i)), Check(p));
    FailAndSettle(s, s2, p, i, error);
    RunTwoMore(s2, CreationFails(p, error, []), Commit(p), []);
    assert [CreationFails(p, error, []), Commit(p)] + [] == [CreationFails(p, error, []), Commit(p)];
    RunTwoMore(s, Claim(p, i), Check(p), [CreationFails(p, error, []), Commit(p)]);
  }

  lemma FailAndSettle(s: State, s2: State, p: PromoterId, i: ItemId, error: CreationError)
    requires Waiting(s.db.items, i) && p !in s.promoters && i !in s.locks && Classify(error) != RejectAll
    requires s2 == s.(promoters := s.promoters[p := Promoter(i, Checked)], locks := s.locks[i := p])
    ensures var s' := Step(Step(s2, CreationFails(p, error, [])), Commit(p));
            && s'.db == (if Classify(error) == RejectItem then SettleAll(s.db, [i], Rejected) else Defer(s.db, i))
            && p !in s'.promoters && i !in s'.locks
  {
    var s3 := Step(s2, CreationFails(p, error, []));
    assert s3.db == s.db && s3.locks == s2.locks
      && s3.promoters == s2.promoters[p := Promoter(i, if Classify(error) == RejectItem then Settling([i], Rejected) else Deferring)] by {
      hide IsHead, Halts, SettleAll, Insert, StepCreate, StepCommit, End, TakesAll;
    }
    hide IsHead, Halts, SettleAll, Insert, StepCreate, StepFails, Classify;
    if s3.promoters[p].phase.Settling? { CommitAlone(s3, p, i, Rejected); }
  }

  /**
   A creation that fails behind an unreconciled outcome rejects the whole queue of the Environment: every waiting item is settled as
   rejected, in the order taken, every other item and every Deployment stays as it was, and all locks are released.
   */
  lemma FencedPromotionRejectsQueue(s: State, p: PromoterId, i: ItemId, error: CreationError, order: seq<ItemId>)
    requires Promotable(s, p, i) && error.unreconciled && TakesAll(s, p, s.db.items[i].environment, order)
    ensures var s' := Run(s, [Claim(p, i), Check(p)] + [CreationFails(p, error, order), Commit(p)]); var environment := s.db.items[i].environment;
            && s'.db == s.db.(items := s'.db.items, log := s'.db.log) && s'.db.items.Keys == s.db.items.Keys
            && (forall j :: j in s.db.items ==>
                  s'.db.items[j] == if WaitingIn(s.db.items, j, environment) then s.db.items[j].(state := Settled(Rejected)) else s.db.items[j])
            && |s'.db.log| == |s.db.log| + |order| && s'.db.log[..|s.db.log|] == s.db.log
            && (forall k :: 0 <= k < |order| ==> order[k] in s.db.items && s'.db.log[|s.db.log| + k] == Settlement(order[k], environment, s.db.items[order[k]].number, Rejected))
            && p !in s'.promoters && forall j :: j in s'.locks ==> s'.locks[j] != p
  {
    ClaimAndCheck(s, p, i);
    HeadWaits(s.db, i);
    VerdictsAre(error);
    hide Step, IsHead, Halts, Promotable, Classify, TakesAll;
    var s2 := Step(Step(s, Claim(p, i)), Check(p));
    FailAndFence(s, s2, p, i, error, order);
    TakenAreWaiting(s, p, s.db.items[i].environment, order);
    RunTwoMore(s2, CreationFails(p, error, order), Commit(p), []);
    assert [CreationFails(p, error, order), Commit(p)] + [] == [CreationFails(p, error, order), Commit(p)];
    RunTwoMore(s, Claim(p, i), Check(p), [CreationFails(p, error, order), Commit(p)]);
  }

  lemma TakenAreWaiting(s: State, p: PromoterId, environment: Environment, order: seq<ItemId>)
    requires TakesAll(s, p, environment, order)
    ensures forall j :: j in order <==> j in s.db.items && WaitingIn(s.db.items, j, environment)
  {
  }

  lemma FailAndFence(s: State, s2: State, p: PromoterId, i: ItemId, error: CreationError, order: seq<ItemId>)
    requires Waiting(s.db.items, i) && p !in s.promoters && Classify(error) == RejectAll && TakesAll(s, p, s.db.items[i].environment, order)
    requires s2 == s.(promoters := s.promoters[p := Promoter(i, Checked)], locks := s.locks[i := p])
    ensures forall j :: j in order ==> j in s.db.items && Waiting(s.db.items, j)
    ensures var s' := Step(Step(s2, CreationFails(p, error, order)), Commit(p));
            && s'.db == SettleAll(s.db, order, Rejected)
            && p !in s'.promoters && forall j :: j in s'.locks ==> s'.locks[j] != p
  {
    StillTakesAll(s, s2, p, i, order);
    TakenAreWaiting(s, p, s.db.items[i].environment, order);
    hide Step, SettleAll, TakesAll, Classify;
    FailTakes(s2, p, i, error, order);
    CommitFence(Step(s2, CreationFails(p, error, order)), p, i, order);
  }

  lemma StillTakesAll(s: State, s2: State, p: PromoterId, i: ItemId, order: seq<ItemId>)
    requires Waiting(s.db.items, i) && TakesAll(s, p, s.db.items[i].environment, order)
    requires s2.db == s.db && s2.locks == s.locks[i := p]
    ensures TakesAll(s2, p, s.db.items[i].environment, order)
  {
  }

  lemma FailTakes(s: State, p: PromoterId, i: ItemId, error: CreationError, order: seq<ItemId>)
    requires p in s.promoters && s.promoters[p] == Promoter(i, Checked) && i in s.db.items
    requires Classify(error) == RejectAll && TakesAll(s, p, s.db.items[i].environment, order)
    ensures var s' := Step(s, CreationFails(p, error, order));
            s'.db == s.db && p in s'.promoters && s'.promoters[p] == Promoter(i, Settling(order, Rejected))
  {
    hide IsHead, Halts, SettleAll, Insert, StepCreate, StepCommit, TakesAll, Classify, Without, With;
    assert StepPromoter(s, CreationFails(p, error, order)) == StepFails(s, p, error, order);
  }

  lemma CommitFence(s: State, p: PromoterId, i: ItemId, order: seq<ItemId>)
    requires p in s.promoters && s.promoters[p] == Promoter(i, Settling(order, Rejected)) && i in s.db.items
    requires forall j :: j in order ==> j in s.db.items && Waiting(s.db.items, j)
    ensures var s' := Step(s, Commit(p));
            s'.db == SettleAll(s.db, order, Rejected) && p !in s'.promoters && forall j :: j in s'.locks ==> s'.locks[j] != p
  {
    hide IsHead, Halts, SettleAll, Insert, StepCreate, StepFails, Defer;
    assert StepPromoter(s, Commit(p)) == StepCommit(s, p);
  }

  /** Cancel withdraws a waiting item that no promoter holds, and changes nothing for one that is being promoted. */
  lemma CancelWithdrawsUnheldItem(s: State, i: ItemId)
    requires Waiting(s.db.items, i)
    ensures var s' := Step(s, Cancel(i));
            && (i in s.locks ==> s' == s)
            && (i !in s.locks ==> s'.db.items == s.db.items[i := s.db.items[i].(state := Settled(Cancelled))]
                                  && s'.db.log == s.db.log + [Settlement(i, s.db.items[i].environment, s.db.items[i].number, Cancelled)])
  {
    OneSettlement(s.db, i, Cancelled);
    hide SettleAll;
  }

  /** A cancelled item is never dispatched: over every run, whatever promoters are under way and whatever comes later, it has no Deployment. */
  lemma CancelledItemIsNeverDispatched(before: seq<Event>, more: seq<Event>, i: ItemId, d: DeploymentId)
    requires var s := After(before); Waiting(s.db.items, i) && i !in s.locks
    ensures var db := Run(Step(After(before), Cancel(i)), more).db;
            && !Waiting(db.items, i) && !DispatchedAs(db.log, i, d)
            && (d in db.deployments ==> db.deployments[d].item != Some(i))
  {
    hide Run, Step, Inv, Keeps, Committed, DispatchedAs;
    var s := After(before);
    Reachable(before);
    CancelWithdrawsUnheldItem(s, i);
    StepKeeps(s, Cancel(i));
    var s1 := Step(s, Cancel(i));
    var n := |s.db.log|;
    assert s1.db.log[n].item == i && s1.db.log[n].outcome == Cancelled;
    RunKeeps(s1, more);
    CommittedOf(Run(s1, more));
    FinalEntry(s1.db, Run(s1, more).db, i, n, d);
  }

  lemma FinalEntry(db: Db, db': Db, i: ItemId, n: nat, d: DeploymentId)
    requires Keeps(db, db') && Committed(db') && n < |db.log| && db.log[n].item == i && db.log[n].outcome == Cancelled
    ensures !Waiting(db'.items, i) && !DispatchedAs(db'.log, i, d) && (d in db'.deployments ==> db'.deployments[d].item != Some(i))
  {
    CommittedParts(db');
    hide Committed, InOrder, ItemsOk, DeploymentsOk;
    assert db'.log[n] == db.log[n];
    assert InLog(db'.log, i);
    assert db'.log[n].item in db'.enqueued;
  }
}
