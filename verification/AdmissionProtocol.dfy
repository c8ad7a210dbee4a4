/**
 The admission protocol as a state machine over durable state.

 One action is one transaction, one message to Core, one reply from Core, or one crash.  Core is
 unconstrained: a reply is an argument of the action.  An action that is not enabled changes
 nothing, so every sequence of actions is a run and the theorems hold for every interleaving.
 */
module AdmissionProtocol {
  import opened Basics
  import opened AdmissionReceipts

  type ProcessId = nat

  datatype Status = Executing | Ended(outcome: Outcome)

  datatype Deployment = Deployment(admission: AdmissionId, status: Status)

  /** How far an attempt has come; Locked, Authorized and Binding hold the admission lock. */
  datatype Phase = Starting | Durable | Locked | Authorized | Binding(deployment: DeploymentId)

  datatype Process =
    | Attempt(id: AdmissionId, intent: Intent, epoch: nat, phase: Phase)
    | Sealer(id: AdmissionId, intent: Intent, epoch: nat)
    | AbsenceSender(id: AdmissionId)
    | AbsenceMarker(id: AdmissionId, epoch: nat)
    | Settler(id: AdmissionId, outcome: Outcome, epoch: nat)
    | SettlementMarker(id: AdmissionId, outcome: Outcome, epoch: nat)

  /** What Core is told about an admission. */
  datatype Message = AbsentAt(id: AdmissionId) | EndedAt(id: AdmissionId, outcome: Outcome)

  /**
   receipts and deployments are the tables; bound and ended remember every Deployment ever committed
   with an admission and every terminal status ever written, so that they survive retention.
   */
  datatype State = State(
    receipts: Table,
    deployments: map<DeploymentId, Deployment>,
    bound: map<DeploymentId, AdmissionId>,
    ended: map<DeploymentId, Outcome>,
    issued: set<DeploymentId>,
    locks: map<AdmissionId, ProcessId>,
    processes: map<ProcessId, Process>,
    told: set<Message>)

  const Initial := State(map[], map[], map[], map[], {}, map[], map[], {})

  datatype Action =
    | Begin(p: ProcessId, id: AdmissionId, intent: Intent)
    | MakeDurable(p: ProcessId)
    | LockReceipt(p: ProcessId)
    | AuthorizeReply(p: ProcessId, epoch: nat)            // 0: denied, busy, mismatched or lost
    | CreateAndBind(p: ProcessId, deployment: DeploymentId)
    | Commit(p: ProcessId, replyLost: bool)
    | Abort(p: ProcessId)
    | Crash(p: ProcessId)
    | SealLocally(p: ProcessId)
    | SendAbsence(p: ProcessId, replyEpoch: nat)          // 0: no matching reply
    | MarkAbsence(p: ProcessId)
    | ReconcileSeal(p: ProcessId, id: AdmissionId)        // of a listed receipt, which may have moved on
    | ReadForSettlement(p: ProcessId, id: AdmissionId, deployment: DeploymentId)
    | SendSettlement(p: ProcessId, replyEpoch: nat)
    | MarkSettlement(p: ProcessId)
    | CompleteDeployment(deployment: DeploymentId, outcome: Outcome)
    | DeleteDeployment(deployment: DeploymentId)          // with its Environment; by force also a running one

  predicate HoldsLock(q: Process) {
    q.Attempt? && (q.phase.Locked? || q.phase.Authorized? || q.phase.Binding?)
  }

  /** The process ends; its transaction, if open, rolls back and its advisory lock is released. */
  function Remove(s: State, p: ProcessId): State
    requires p in s.processes
  {
    s.(processes := s.processes - {p},
       locks := if HoldsLock(s.processes[p]) then s.locks - {s.processes[p].id} else s.locks)
  }

  /** The attempt rolls back; once its receipt is durable it goes on to seal absence. */
  function RollBack(s: State, p: ProcessId): State
    requires p in s.processes && s.processes[p].Attempt?
  {
    var a := s.processes[p];
    var s1 := Remove(s, p);
    if a.phase.Starting? then s1
    else s1.(processes := s1.processes[p := Sealer(a.id, a.intent, a.epoch)])
  }

  function StepAttempt(s: State, a: Action): State
    requires a.MakeDurable? || a.LockReceipt? || a.AuthorizeReply? || a.CreateAndBind? || a.Commit? || a.Abort?
    requires a.p in s.processes && s.processes[a.p].Attempt?
  {
    var q := s.processes[a.p];
    match a
    case MakeDurable(p) =>
      if !q.phase.Starting? || q.id in s.locks then s
      else
        var u := Prepared(s.receipts, q.id, q.intent);
        if u.1.Err? then Remove(s, p)
        else s.(receipts := u.0, processes := s.processes[p := q.(phase := Durable)])
    case LockReceipt(p) =>
      if !q.phase.Durable? || q.id in s.locks then s
      else if q.id !in s.receipts || s.receipts[q.id].disposition != Pending then RollBack(s, p)
      else s.(locks := s.locks[q.id := p], processes := s.processes[p := q.(phase := Locked)])
    case AuthorizeReply(p, epoch) =>
      if !q.phase.Locked? then s
      else if epoch == 0 then RollBack(s, p)
      else s.(processes := s.processes[p := q.(epoch := epoch, phase := Authorized)])
    case CreateAndBind(p, d) =>
      if !q.phase.Authorized? || d in s.issued then s
      else if Bound(s.receipts, q.id, q.intent, d, q.epoch).1.Err? then RollBack(s, p)
      else s.(issued := s.issued + {d}, processes := s.processes[p := q.(phase := Binding(d))])
    case Commit(p, replyLost) =>
      if !q.phase.Binding? then s
      else
        var d := q.phase.deployment;
        var s1 := if replyLost then RollBack(s, p) else Remove(s, p);
        s1.(receipts := Bound(s.receipts, q.id, q.intent, d, q.epoch).0,
            deployments := s.deployments[d := Deployment(q.id, Executing)],
            bound := s.bound[d := q.id])
    case Abort(p) => RollBack(s, p)
  }

  function StepCore(s: State, a: Action): State
    requires a.SealLocally? || a.SendAbsence? || a.MarkAbsence? || a.SendSettlement? || a.MarkSettlement?
    requires a.p in s.processes
  {
    var q := s.processes[a.p];
    match a
    case SealLocally(p) =>
      if !q.Sealer? || q.id in s.locks then s
      else
        var u := Sealed(s.receipts, q.id, q.intent, q.epoch);
        if u.1.Err? then Remove(s, p)
        else s.(receipts := u.0, processes := s.processes[p := AbsenceSender(q.id)])
    case SendAbsence(p, replyEpoch) =>
      if !q.AbsenceSender? then s
      else
        var s1 := s.(told := s.told + {AbsentAt(q.id)});
        if replyEpoch == 0 then Remove(s1, p)
        else s1.(processes := s.processes[p := AbsenceMarker(q.id, replyEpoch)])
    case MarkAbsence(p) =>
      if !q.AbsenceMarker? || q.id in s.locks then s
      else Remove(s.(receipts := Settled(s.receipts, q.id, WasAbsent, q.epoch).0), p)
    case SendSettlement(p, replyEpoch) =>
      if !q.Settler? then s
      else
        var s1 := s.(told := s.told + {EndedAt(q.id, q.outcome)});
        if replyEpoch != q.epoch then Remove(s1, p)
        else s1.(processes := s.processes[p := SettlementMarker(q.id, q.outcome, q.epoch)])
    case MarkSettlement(p) =>
      if !q.SettlementMarker? || q.id in s.locks then s
      else Remove(s.(receipts := Settled(s.receipts, q.id, q.outcome, q.epoch).0), p)
  }

  function StepRest(s: State, a: Action): State
    requires a.Begin? || a.ReconcileSeal? || a.ReadForSettlement? || a.CompleteDeployment? || a.DeleteDeployment?
  {
    match a
    case Begin(p, id, intent) =>
      if p in s.processes then s
      else s.(processes := s.processes[p := Attempt(id, intent, 0, Starting)])
    case ReconcileSeal(p, id) =>
      if p in s.processes || id !in s.receipts then s
      else s.(processes := s.processes[p := Sealer(id, s.receipts[id].intent, s.receipts[id].epoch)])
    case ReadForSettlement(p, id, d) =>
      if p in s.processes || id !in s.receipts || s.receipts[id].deployment != Some(d) || s.receipts[id].settled ||
         d !in s.deployments || s.deployments[d].status.Executing? then s
      else s.(processes := s.processes[p := Settler(id, s.deployments[d].status.outcome, s.receipts[id].epoch)])
    case CompleteDeployment(d, outcome) =>
      if d !in s.deployments || !s.deployments[d].status.Executing? || outcome == WasAbsent then s
      else s.(deployments := s.deployments[d := s.deployments[d].(status := Ended(outcome))],
              ended := s.ended[d := outcome])
    case DeleteDeployment(d) =>
      if d !in s.deployments then s
      else s.(deployments := s.deployments - {d})
  }

  function Step(s: State, a: Action): State {
    match a
    case Begin(_, _, _) => StepRest(s, a)
    case ReconcileSeal(_, _) => StepRest(s, a)
    case ReadForSettlement(_, _, _) => StepRest(s, a)
    case CompleteDeployment(_, _) => StepRest(s, a)
    case DeleteDeployment(_) => StepRest(s, a)
    case Crash(p) => if p in s.processes then Remove(s, p) else s
    case SealLocally(p) => if p in s.processes then StepCore(s, a) else s
    case SendAbsence(p, _) => if p in s.processes then StepCore(s, a) else s
    case MarkAbsence(p) => if p in s.processes then StepCore(s, a) else s
    case SendSettlement(p, _) => if p in s.processes then StepCore(s, a) else s
    case MarkSettlement(p) => if p in s.processes then StepCore(s, a) else s
    case _ => if a.p in s.processes && s.processes[a.p].Attempt? then StepAttempt(s, a) else s
  }

  function Run(s: State, actions: seq<Action>): State
    decreases |actions|
  {
    if actions == [] then s else Run(Step(s, actions[0]), actions[1..])
  }

  // ---------------------------------------------------------------- invariant

  predicate SealedAbsent(t: Table, id: AdmissionId) {
    id in t && t[id].disposition == Absent
  }

  /** Admission id is bound to a Deployment that ended with this outcome. */
  predicate EndedWith(s: State, id: AdmissionId, outcome: Outcome) {
    && id in s.receipts && s.receipts[id].disposition == Committed && s.receipts[id].deployment.Some?
    && var d := s.receipts[id].deployment.value; d in s.ended && s.ended[d] == outcome && outcome != WasAbsent
  }

  predicate ProcessOk(s: State, p: ProcessId, q: Process) {
    match q
    case Attempt(id, intent, epoch, phase) =>
      && (HoldsLock(q) ==>
            id in s.locks && s.locks[id] == p && id in s.receipts && s.receipts[id].disposition == Pending && s.receipts[id].intent == intent)
      && (phase.Authorized? || phase.Binding? ==> epoch > 0)
      && (phase.Binding? ==> phase.deployment in s.issued && phase.deployment !in s.bound)
      && (phase.Durable? ==> id in s.receipts && s.receipts[id].intent == intent)
    case Sealer(_, _, _) => true
    case AbsenceSender(id) => SealedAbsent(s.receipts, id)
    case AbsenceMarker(id, _) => SealedAbsent(s.receipts, id)
    case Settler(id, outcome, _) => EndedWith(s, id, outcome)
    case SettlementMarker(id, outcome, _) => EndedWith(s, id, outcome)
  }

  predicate MessageOk(s: State, m: Message) {
    match m
    case AbsentAt(id) => SealedAbsent(s.receipts, id)
    case EndedAt(id, outcome) => EndedWith(s, id, outcome)
  }

  predicate ProcessesOk(s: State) {
    forall p :: p in s.processes ==> ProcessOk(s, p, s.processes[p])
  }

  /** Two open transactions never carry the same new Deployment. */
  predicate DistinctBindings(s: State) {
    forall p, p' :: p in s.processes && p' in s.processes && p != p' && s.processes[p].Attempt? && s.processes[p'].Attempt?
      && s.processes[p].phase.Binding? && s.processes[p'].phase.Binding?
      ==> s.processes[p].phase.deployment != s.processes[p'].phase.deployment
  }

  predicate LocksOk(s: State) {
    forall id :: id in s.locks ==>
      s.locks[id] in s.processes && HoldsLock(s.processes[s.locks[id]]) && s.processes[s.locks[id]].id == id
  }

  predicate NamesReceipt(s: State, d: DeploymentId)
    requires d in s.bound
  {
    d in s.issued && s.bound[d] in s.receipts && s.receipts[s.bound[d]].deployment == Some(d)
  }

  predicate NamesDeployment(s: State, id: AdmissionId)
    requires id in s.receipts
  {
    s.receipts[id].deployment.Some? ==>
      s.receipts[id].deployment.value in s.bound && s.bound[s.receipts[id].deployment.value] == id
  }

  /** Committed receipts and committed Deployments name each other. */
  predicate BindingsOk(s: State) {
    && (forall d :: d in s.bound ==> NamesReceipt(s, d))
    && (forall id :: id in s.receipts ==> NamesDeployment(s, id))
  }

  predicate OutcomesOk(s: State) {
    && (forall d :: d in s.deployments ==> d in s.bound && s.bound[d] == s.deployments[d].admission)
    && (forall d :: d in s.deployments && s.deployments[d].status.Ended? ==>
          d in s.ended && s.ended[d] == s.deployments[d].status.outcome && s.ended[d] != WasAbsent)
    && (forall d :: d in s.deployments && s.deployments[d].status.Executing? ==> d !in s.ended)
    && (forall d :: d in s.ended ==> d in s.bound)
  }

  predicate MessagesOk(s: State) {
    forall m :: m in s.told ==> MessageOk(s, m)
  }

  predicate Inv(s: State) {
    && TableValid(s.receipts) && LocksOk(s) && ProcessesOk(s) && DistinctBindings(s) && BindingsOk(s) && OutcomesOk(s) && MessagesOk(s)
  }

  /** What no step takes back. */
  predicate Monotone(s: State, s': State) {
    && TableAdvances(s.receipts, s'.receipts)
    && (forall d :: d in s.bound ==> d in s'.bound && s'.bound[d] == s.bound[d])
    && (forall d :: d in s.ended ==> d in s'.ended && s'.ended[d] == s.ended[d])
    && s.told <= s'.told
  }

  // ---------------------------------------------------------------- preservation

  lemma EndedWithStable(s: State, s': State, id: AdmissionId, outcome: Outcome)
    requires Monotone(s, s') && EndedWith(s, id, outcome)
    ensures EndedWith(s', id, outcome)
  {
    assert Advances(s.receipts[id], s'.receipts[id]);
  }

  lemma MessagesStable(s: State, s': State)
    requires Monotone(s, s') && MessagesOk(s)
    ensures forall m :: m in s.told ==> MessageOk(s', m)
  {
    forall m | m in s.told ensures MessageOk(s', m) {
      match m
      case AbsentAt(id) => assert Advances(s.receipts[id], s'.receipts[id]);
      case EndedAt(id, outcome) => EndedWithStable(s, s', id, outcome);
    }
  }

  /** Nothing another process does disturbs what this one relies on. */
  predicate Undisturbed(s: State, s': State, p: ProcessId, q: Process) {
    && (HoldsLock(q) ==>
          q.id in s'.locks && s'.locks[q.id] == p && q.id in s'.receipts && s'.receipts[q.id].disposition == Pending)
    && (q.Attempt? && q.phase.Binding? ==> q.phase.deployment in s'.issued && q.phase.deployment !in s'.bound)
  }

  lemma ProcessStable(s: State, s': State, p: ProcessId, q: Process)
    requires Monotone(s, s') && ProcessOk(s, p, q) && Undisturbed(s, s', p, q)
    ensures ProcessOk(s', p, q)
  {
    if q.id in s.receipts { assert Advances(s.receipts[q.id], s'.receipts[q.id]); }
    if q.Settler? || q.SettlementMarker? { EndedWithStable(s, s', q.id, q.outcome); }
  }

  /** Process p is fine after the step, either by itself or because the step left it alone. */
  predicate Carried(s: State, s': State, p: ProcessId)
    requires p in s'.processes
  {
    || ProcessOk(s', p, s'.processes[p])
    || (p in s.processes && s'.processes[p] == s.processes[p] && Undisturbed(s, s', p, s.processes[p]))
  }

  /** The invariant of the new state from its parts. */
  lemma InvFromParts(s: State, s': State)
    requires ProcessesOk(s) && MessagesOk(s) && Monotone(s, s')
    requires forall m :: m in s'.told && m !in s.told ==> MessageOk(s', m)
    requires forall p :: p in s'.processes ==> Carried(s, s', p)
    requires TableValid(s'.receipts) && LocksOk(s') && DistinctBindings(s') && BindingsOk(s') && OutcomesOk(s')
    ensures Inv(s')
  {
    hide TableValid, LocksOk, DistinctBindings, BindingsOk, OutcomesOk, Undisturbed, Monotone, MessageOk, ProcessOk;
    forall p | p in s'.processes ensures ProcessOk(s', p, s'.processes[p]) {
      assert Carried(s, s', p);
      if !ProcessOk(s', p, s'.processes[p]) { ProcessStable(s, s', p, s.processes[p]); }
    }
    MessagesStable(s, s');
  }

  lemma Parts(s: State)
    requires Inv(s)
    ensures TableValid(s.receipts) && LocksOk(s) && ProcessesOk(s) && DistinctBindings(s) && BindingsOk(s) && OutcomesOk(s) && MessagesOk(s)
  {
    hide TableValid, LocksOk, ProcessesOk, DistinctBindings, BindingsOk, OutcomesOk, MessagesOk;
  }

  lemma ProcessOf(s: State, p: ProcessId)
    requires Inv(s) && p in s.processes
    ensures ProcessOk(s, p, s.processes[p])
  {
    hide TableValid, LocksOk, DistinctBindings, BindingsOk, OutcomesOk, MessagesOk, ProcessOk;
  }

  lemma MonotoneSelf(s: State)
    ensures Monotone(s, s)
  {
  }

  /** Only processes, locks, identifiers and messages change. */
  predicate SameRows(s: State, s': State) {
    s'.receipts == s.receipts && s'.bound == s.bound && s'.deployments == s.deployments && s'.ended == s.ended
    && s.told <= s'.told && s.issued <= s'.issued
  }

  lemma SameRowsKeep(s: State, s': State)
    requires BindingsOk(s) && OutcomesOk(s) && SameRows(s, s')
    ensures Monotone(s, s') && BindingsOk(s') && OutcomesOk(s')
  {
    SameRowsMonotone(s, s');
    hide Monotone;
    forall d | d in s'.bound ensures NamesReceipt(s', d) { assert NamesReceipt(s, d); }
    forall id | id in s'.receipts ensures NamesDeployment(s', id) { assert NamesDeployment(s, id); }
  }

  lemma SameRowsMonotone(s: State, s': State)
    requires SameRows(s, s')
    ensures Monotone(s, s')
  {
  }

  /** A step that leaves the receipts, the committed bindings and the locks of other processes alone disturbs none of them. */
  lemma SameTablesUndisturbed(s: State, s': State, p: ProcessId)
    requires ProcessesOk(s) && s'.receipts == s.receipts && s'.bound == s.bound && s.issued <= s'.issued
    requires forall id :: id in s.locks && s.locks[id] != p ==> id in s'.locks && s'.locks[id] == s.locks[id]
    ensures forall p' :: p' in s.processes && p' != p ==> Undisturbed(s, s', p', s.processes[p'])
  {
    forall p' | p' in s.processes && p' != p ensures Undisturbed(s, s', p', s.processes[p']) {
      assert ProcessOk(s, p', s.processes[p']);
    }
  }

  lemma SameTablesUndisturbedAll(s: State, s': State)
    requires ProcessesOk(s) && s'.receipts == s.receipts && s'.bound == s.bound && s.issued <= s'.issued && s'.locks == s.locks
    ensures forall p :: p in s.processes ==> Undisturbed(s, s', p, s.processes[p])
  {
    forall p | p in s.processes ensures Undisturbed(s, s', p, s.processes[p]) {
      assert ProcessOk(s, p, s.processes[p]);
    }
  }

  lemma RemoveKeepsLocks(s: State, p: ProcessId)
    requires LocksOk(s) && DistinctBindings(s) && p in s.processes
    requires HoldsLock(s.processes[p]) ==> s.processes[p].id in s.locks && s.locks[s.processes[p].id] == p
    ensures LocksOk(Remove(s, p)) && DistinctBindings(Remove(s, p))
    ensures forall id :: id in s.locks && s.locks[id] != p ==> id in Remove(s, p).locks && Remove(s, p).locks[id] == s.locks[id]
  {
  }

  lemma LockOf(s: State, p: ProcessId)
    requires Inv(s) && p in s.processes
    ensures HoldsLock(s.processes[p]) ==>
              var id := s.processes[p].id; id in s.locks && s.locks[id] == p && id in s.receipts && s.receipts[id].disposition == Pending
  {
    hide Inv;
    ProcessOf(s, p);
  }

  lemma RemoveKeeps(s: State, p: ProcessId)
    requires Inv(s) && p in s.processes
    ensures Inv(Remove(s, p)) && Monotone(s, Remove(s, p))
  {
    hide Inv, BindingsOk, OutcomesOk, MessagesOk, ProcessesOk, LocksOk, DistinctBindings, TableValid, Undisturbed, Monotone, ProcessOk, MessageOk, TableAdvances;
    var s' := Remove(s, p);
    Parts(s);
    LockOf(s, p);
    SameRowsKeep(s, s');
    RemoveKeepsLocks(s, p);
    SameTablesUndisturbed(s, s', p);
    InvFromParts(s, s');
  }

  lemma SetProcessKeepsLocks(s: State, p: ProcessId, q: Process)
    requires LocksOk(s) && DistinctBindings(s) && !(q.Attempt? && q.phase.Binding?)
    requires p in s.processes ==> HoldsLock(q) == HoldsLock(s.processes[p]) && q.id == s.processes[p].id
    requires p !in s.processes ==> !HoldsLock(q)
    ensures var s' := s.(processes := s.processes[p := q]); LocksOk(s') && DistinctBindings(s')
  {
  }

  /** What a process relies on are the tables and the locks. */
  lemma OtherProcessesDoNotMatter(s: State, s': State, p: ProcessId, q: Process)
    requires ProcessOk(s, p, q) && SameRows(s, s') && s'.locks == s.locks
    ensures ProcessOk(s', p, q)
  {
  }

  /** A step that only rewrites process p, without giving or taking a lock. */
  lemma AdvanceProcessKeeps(s: State, p: ProcessId, q: Process)
    requires Inv(s) && (p in s.processes ==> HoldsLock(q) == HoldsLock(s.processes[p]) && q.id == s.processes[p].id)
    requires p !in s.processes ==> !HoldsLock(q)
    requires ProcessOk(s, p, q) && !(q.Attempt? && q.phase.Binding?)
    ensures var s' := s.(processes := s.processes[p := q]); Inv(s') && Monotone(s, s')
  {
    hide Inv, BindingsOk, OutcomesOk, MessagesOk, ProcessesOk, LocksOk, DistinctBindings, TableValid, Undisturbed, Monotone, ProcessOk, MessageOk, TableAdvances;
    var s' := s.(processes := s.processes[p := q]);
    Parts(s);
    SameRowsKeep(s, s');
    OtherProcessesDoNotMatter(s, s', p, q);
    SetProcessKeepsLocks(s, p, q);
    SameTablesUndisturbed(s, s', p);
    InvFromParts(s, s');
  }

  lemma RollBackKeeps(s: State, p: ProcessId)
    requires Inv(s) && p in s.processes && s.processes[p].Attempt?
    ensures Inv(RollBack(s, p)) && Monotone(s, RollBack(s, p))
  {
    var a := s.processes[p];
    hide Inv, Monotone;
    RemoveKeeps(s, p);
    if !a.phase.Starting? {
      AdvanceProcessKeeps(Remove(s, p), p, Sealer(a.id, a.intent, a.epoch));
      MonotoneTransitive(s, Remove(s, p), RollBack(s, p));
    }
  }

  predicate HarmlessChange(s: State, t: Table) {
    && TableValid(t) && TableAdvances(s.receipts, t)
    && (forall id :: id in t ==> t[id].deployment == if id in s.receipts then s.receipts[id].deployment else None)
    && (forall id :: id in s.locks && id in s.receipts ==> id in t && t[id] == s.receipts[id])
  }

  lemma PreparedIsHarmless(s: State, id: AdmissionId, intent: Intent)
    requires TableValid(s.receipts) && id !in s.locks
    ensures HarmlessChange(s, Prepared(s.receipts, id, intent).0)
  {
    PreparedKeepsTable(s.receipts, id, intent);
  }

  lemma SealedIsHarmless(s: State, id: AdmissionId, intent: Intent, epoch: nat)
    requires TableValid(s.receipts) && id !in s.locks
    ensures HarmlessChange(s, Sealed(s.receipts, id, intent, epoch).0)
  {
    SealedKeepsTable(s.receipts, id, intent, epoch);
  }

  lemma SettledIsHarmless(s: State, id: AdmissionId, outcome: Outcome, epoch: nat)
    requires TableValid(s.receipts) && id !in s.locks
    ensures HarmlessChange(s, Settled(s.receipts, id, outcome, epoch).0)
  {
    SettledKeepsTable(s.receipts, id, outcome, epoch);
  }

  lemma HarmlessKeepsBindings(s: State, t: Table)
    requires BindingsOk(s) && HarmlessChange(s, t)
    ensures BindingsOk(s.(receipts := t))
  {
    var s' := s.(receipts := t);
    forall d | d in s'.bound ensures NamesReceipt(s', d) { assert NamesReceipt(s, d); }
    forall id | id in s'.receipts ensures NamesDeployment(s', id) {
      if id in s.receipts { assert NamesDeployment(s, id); }
    }
  }

  lemma HarmlessUndisturbed(s: State, t: Table)
    requires ProcessesOk(s) && HarmlessChange(s, t)
    ensures forall p :: p in s.processes ==> Undisturbed(s, s.(receipts := t), p, s.processes[p])
  {
    forall p | p in s.processes ensures Undisturbed(s, s.(receipts := t), p, s.processes[p]) {
      assert ProcessOk(s, p, s.processes[p]);
    }
  }

  lemma HarmlessIsMonotone(s: State, t: Table)
    requires HarmlessChange(s, t)
    ensures Monotone(s, s.(receipts := t)) && TableValid(t)
  {
    hide TableAdvances, TableValid;
  }

  lemma SameProcesses(s: State, s': State)
    requires LocksOk(s) && DistinctBindings(s) && OutcomesOk(s)
    requires s'.processes == s.processes && s'.locks == s.locks && s'.bound == s.bound && s'.deployments == s.deployments && s'.ended == s.ended
    ensures LocksOk(s') && DistinctBindings(s') && OutcomesOk(s')
  {
  }

  /** A receipt change made while nobody holds that admission's lock. */
  lemma ReceiptChangeKeeps(s: State, t: Table)
    requires Inv(s) && HarmlessChange(s, t)
    ensures var s' := s.(receipts := t); Inv(s') && Monotone(s, s')
  {
    hide Inv, BindingsOk, OutcomesOk, MessagesOk, ProcessesOk, LocksOk, DistinctBindings, TableValid, Undisturbed, Monotone, ProcessOk, MessageOk, TableAdvances;
    var s' := s.(receipts := t);
    Parts(s);
    HarmlessIsMonotone(s, t);
    SameProcesses(s, s');
    HarmlessKeepsBindings(s, t);
    HarmlessUndisturbed(s, t);
    InvFromParts(s, s');
  }

  lemma MakeDurableKeeps(s: State, p: ProcessId)
    requires Inv(s) && p in s.processes && s.processes[p].Attempt?
    ensures var s' := StepAttempt(s, MakeDurable(p)); Inv(s') && Monotone(s, s')
  {
    hide Inv, Monotone, TableValid, HarmlessChange;
    var q := s.processes[p];
    MonotoneSelf(s);
    Parts(s);
    if q.phase.Starting? && q.id !in s.locks {
      var u := Prepared(s.receipts, q.id, q.intent);
      if u.1.Err? {
        RemoveKeeps(s, p);
      } else {
        var s1 := s.(receipts := u.0);
        PreparedIsHarmless(s, q.id, q.intent);
        ReceiptChangeKeeps(s, u.0);
        AdvanceProcessKeeps(s1, p, q.(phase := Durable));
        MonotoneTransitive(s, s1, StepAttempt(s, MakeDurable(p)));
      }
    }
  }

  lemma AcquireKeepsLocks(s: State, p: ProcessId, q': Process)
    requires LocksOk(s) && DistinctBindings(s) && p in s.processes && !HoldsLock(s.processes[p]) && HoldsLock(q') && !q'.phase.Binding? && q'.id !in s.locks
    ensures var s' := s.(locks := s.locks[q'.id := p], processes := s.processes[p := q']); LocksOk(s') && DistinctBindings(s')
  {
  }

  lemma LockedIsFine(s: State, p: ProcessId, q: Process)
    requires q.Attempt? && q.phase.Locked? && q.id in s.receipts && s.receipts[q.id].disposition == Pending && s.receipts[q.id].intent == q.intent
    requires q.id in s.locks && s.locks[q.id] == p
    ensures ProcessOk(s, p, q)
  {
  }

  lemma AcquireKeeps(s: State, p: ProcessId, q': Process)
    requires Inv(s) && p in s.processes && !HoldsLock(s.processes[p]) && q'.id !in s.locks
    requires q'.Attempt? && q'.phase.Locked? && q'.id in s.receipts && s.receipts[q'.id].disposition == Pending && s.receipts[q'.id].intent == q'.intent
    ensures var s' := s.(locks := s.locks[q'.id := p], processes := s.processes[p := q']); Inv(s') && Monotone(s, s')
  {
    hide Inv, BindingsOk, OutcomesOk, MessagesOk, ProcessesOk, LocksOk, DistinctBindings, TableValid, Undisturbed, Monotone, ProcessOk, MessageOk, TableAdvances;
    var s' := s.(locks := s.locks[q'.id := p], processes := s.processes[p := q']);
    Parts(s);
    SameRowsKeep(s, s');
    LockedIsFine(s', p, q');
    AcquireKeepsLocks(s, p, q');
    SameTablesUndisturbed(s, s', p);
    InvFromParts(s, s');
  }

  lemma LockReceiptKeeps(s: State, p: ProcessId)
    requires Inv(s) && p in s.processes && s.processes[p].Attempt?
    ensures var s' := StepAttempt(s, LockReceipt(p)); Inv(s') && Monotone(s, s')
  {
    hide Inv, Monotone;
    var q := s.processes[p];
    ProcessOf(s, p);
    MonotoneSelf(s);
    if q.phase.Durable? && q.id !in s.locks {
      if s.receipts[q.id].disposition != Pending { RollBackKeeps(s, p); } else { AcquireKeeps(s, p, q.(phase := Locked)); }
    }
  }

  lemma OpenBindingKeepsLocks(s: State, p: ProcessId, q': Process)
    requires LocksOk(s) && ProcessesOk(s) && DistinctBindings(s) && p in s.processes && HoldsLock(s.processes[p])
    requires q'.Attempt? && q' == s.processes[p].(phase := q'.phase) && q'.phase.Binding? && q'.phase.deployment !in s.issued
    ensures var s' := s.(issued := s.issued + {q'.phase.deployment}, processes := s.processes[p := q']); LocksOk(s') && DistinctBindings(s')
  {
    forall p' | p' in s.processes && s.processes[p'].Attempt? && s.processes[p'].phase.Binding?
      ensures s.processes[p'].phase.deployment != q'.phase.deployment
    {
      assert ProcessOk(s, p', s.processes[p']);
    }
  }

  lemma BindingIsFine(s: State, s': State, p: ProcessId, q': Process)
    requires BindingsOk(s) && p in s.processes && HoldsLock(s.processes[p]) && ProcessOk(s, p, s.processes[p]) && SameRows(s, s') && s'.locks == s.locks
    requires q'.Attempt? && q' == s.processes[p].(phase := q'.phase) && q'.phase.Binding? && q'.phase.deployment !in s.issued && q'.epoch > 0
    requires q'.phase.deployment in s'.issued
    ensures ProcessOk(s', p, q')
  {
    assert q'.phase.deployment in s.bound ==> NamesReceipt(s, q'.phase.deployment);
  }

  lemma OpenBindingKeeps(s: State, p: ProcessId, q': Process)
    requires Inv(s) && p in s.processes && HoldsLock(s.processes[p])
    requires q'.Attempt? && q' == s.processes[p].(phase := q'.phase) && q'.phase.Binding? && q'.phase.deployment !in s.issued && q'.epoch > 0
    ensures var s' := s.(issued := s.issued + {q'.phase.deployment}, processes := s.processes[p := q']); Inv(s') && Monotone(s, s')
  {
    hide Inv, BindingsOk, OutcomesOk, MessagesOk, ProcessesOk, LocksOk, DistinctBindings, TableValid, Undisturbed, Monotone, ProcessOk, MessageOk, TableAdvances;
    var s' := s.(issued := s.issued + {q'.phase.deployment}, processes := s.processes[p := q']);
    Parts(s);
    ProcessOf(s, p);
    SameRowsKeep(s, s');
    BindingIsFine(s, s', p, q');
    OpenBindingKeepsLocks(s, p, q');
    SameTablesUndisturbed(s, s', p);
    InvFromParts(s, s');
  }

  lemma CreateAndBindKeeps(s: State, p: ProcessId, d: DeploymentId)
    requires Inv(s) && p in s.processes && s.processes[p].Attempt?
    ensures var s' := StepAttempt(s, CreateAndBind(p, d)); Inv(s') && Monotone(s, s')
  {
    hide Inv, Monotone;
    var q := s.processes[p];
    ProcessOf(s, p);
    MonotoneSelf(s);
    if q.phase.Authorized? && d !in s.issued { OpenBindingKeeps(s, p, q.(phase := Binding(d))); }
  }

  /** The tables once admission id is bound to the new Deployment d. */
  function BoundState(s: State, id: AdmissionId, d: DeploymentId, epoch: nat): State
    requires id in s.receipts
  {
    s.(receipts := Bound(s.receipts, id, s.receipts[id].intent, d, epoch).0,
       deployments := s.deployments[d := Deployment(id, Executing)], bound := s.bound[d := id])
  }

  lemma BoundStateKeepsBindings(s: State, id: AdmissionId, d: DeploymentId, epoch: nat)
    requires BindingsOk(s) && id in s.receipts && s.receipts[id].disposition == Pending && s.receipts[id].deployment.None?
    requires epoch > 0 && d in s.issued && d !in s.bound
    ensures BindingsOk(BoundState(s, id, d, epoch))
  {
    var s' := BoundState(s, id, d, epoch);
    forall d' | d' in s'.bound ensures NamesReceipt(s', d') {
      if d' != d { assert NamesReceipt(s, d'); }
    }
    forall id' | id' in s'.receipts ensures NamesDeployment(s', id') {
      if id' != id { assert NamesDeployment(s, id'); }
    }
  }

  lemma BoundStateKeepsOutcomes(s: State, id: AdmissionId, d: DeploymentId, epoch: nat)
    requires OutcomesOk(s) && id in s.receipts && d !in s.bound
    ensures OutcomesOk(BoundState(s, id, d, epoch))
  {
    assert d !in s.deployments && d !in s.ended;
  }

  lemma BoundStateUndisturbs(s: State, id: AdmissionId, d: DeploymentId, epoch: nat)
    requires ProcessesOk(s) && id !in s.locks && id in s.receipts && d !in s.bound
    requires forall p :: p in s.processes && s.processes[p].Attempt? && s.processes[p].phase.Binding? ==> s.processes[p].phase.deployment != d
    ensures var s' := BoundState(s, id, d, epoch); forall p :: p in s.processes ==> Undisturbed(s, s', p, s.processes[p])
  {
    var s' := BoundState(s, id, d, epoch);
    forall p | p in s.processes ensures Undisturbed(s, s', p, s.processes[p]) {
      assert ProcessOk(s, p, s.processes[p]);
    }
  }

  lemma PendingIsUnbound(s: State, id: AdmissionId)
    requires TableValid(s.receipts) && id in s.receipts && s.receipts[id].disposition == Pending
    ensures RowValid(s.receipts[id]) && s.receipts[id].deployment.None?
  {
  }

  lemma BoundIsMonotone(s: State, id: AdmissionId, d: DeploymentId, epoch: nat)
    requires id in s.receipts && d !in s.bound && TableAdvances(s.receipts, BoundState(s, id, d, epoch).receipts)
    ensures Monotone(s, BoundState(s, id, d, epoch))
  {
    hide TableAdvances, Bound;
  }

  lemma BoundStateKeepsLocks(s: State, id: AdmissionId, d: DeploymentId, epoch: nat)
    requires LocksOk(s) && DistinctBindings(s) && id in s.receipts
    ensures LocksOk(BoundState(s, id, d, epoch)) && DistinctBindings(BoundState(s, id, d, epoch))
  {
    hide Bound;
  }

  lemma BindDurablyKeeps(s: State, id: AdmissionId, d: DeploymentId, epoch: nat)
    requires Inv(s) && id !in s.locks && id in s.receipts && s.receipts[id].disposition == Pending && epoch > 0
    requires d in s.issued && d !in s.bound
    requires forall p :: p in s.processes && s.processes[p].Attempt? && s.processes[p].phase.Binding? ==> s.processes[p].phase.deployment != d
    ensures var s' := BoundState(s, id, d, epoch); Inv(s') && Monotone(s, s')
  {
    hide Inv, BindingsOk, OutcomesOk, MessagesOk, ProcessesOk, LocksOk, DistinctBindings, TableValid, Undisturbed, Monotone, ProcessOk, MessageOk, TableAdvances;
    var s' := BoundState(s, id, d, epoch);
    Parts(s);
    PendingIsUnbound(s, id);
    BoundKeepsTable(s.receipts, id, s.receipts[id].intent, d, epoch);
    BoundIsMonotone(s, id, d, epoch);
    BoundStateKeepsLocks(s, id, d, epoch);
    BoundStateKeepsBindings(s, id, d, epoch);
    BoundStateKeepsOutcomes(s, id, d, epoch);
    BoundStateUndisturbs(s, id, d, epoch);
    InvFromParts(s, s');
  }

  /** The commit makes the Deployment and its bound receipt durable together. */
  lemma CommitKeeps(s: State, p: ProcessId, replyLost: bool)
    requires Inv(s) && p in s.processes && s.processes[p].Attempt?
    ensures var s' := StepAttempt(s, Commit(p, replyLost)); Inv(s') && Monotone(s, s')
  {
    var q := s.processes[p];
    assert ProcessOk(s, p, q);
    assert Monotone(s, s);
    if q.phase.Binding? {
      var d := q.phase.deployment;
      var s1 := if replyLost then RollBack(s, p) else Remove(s, p);
      assert q.id !in s1.locks;
      forall p' | p' in s1.processes && s1.processes[p'].Attempt? && s1.processes[p'].phase.Binding?
        ensures s1.processes[p'].phase.deployment != d
      {
        assert p' in s.processes && p' != p;
      }
      hide Inv, Monotone;
      if replyLost { RollBackKeeps(s, p); } else { RemoveKeeps(s, p); }
      BindDurablyKeeps(s1, q.id, d, q.epoch);
      MonotoneTransitive(s, s1, StepAttempt(s, Commit(p, replyLost)));
    }
  }

  lemma StepAttemptKeeps(s: State, a: Action)
    requires a.MakeDurable? || a.LockReceipt? || a.AuthorizeReply? || a.CreateAndBind? || a.Commit? || a.Abort?
    requires Inv(s) && a.p in s.processes && s.processes[a.p].Attempt?
    ensures Inv(StepAttempt(s, a)) && Monotone(s, StepAttempt(s, a))
  {
    match a
    case MakeDurable(p) => MakeDurableKeeps(s, p);
    case LockReceipt(p) => LockReceiptKeeps(s, p);
    case AuthorizeReply(p, epoch) =>
      var q := s.processes[p];
      assert ProcessOk(s, p, q);
      if q.phase.Locked? {
        if epoch == 0 { RollBackKeeps(s, p); } else { AdvanceProcessKeeps(s, p, q.(epoch := epoch, phase := Authorized)); }
      }
    case CreateAndBind(p, d) =>
      CreateAndBindKeeps(s, p, d);
    case Commit(p, replyLost) => CommitKeeps(s, p, replyLost);
    case Abort(p) => RollBackKeeps(s, p);
  }

  lemma MessageStays(s: State, s': State, m: Message)
    requires MessageOk(s, m) && SameRows(s, s')
    ensures MessageOk(s', m)
  {
  }

  /** Telling Core something that is already durable. */
  lemma TellKeeps(s: State, m: Message)
    requires Inv(s) && MessageOk(s, m)
    ensures var s' := s.(told := s.told + {m}); Inv(s') && Monotone(s, s')
  {
    hide Inv, BindingsOk, OutcomesOk, MessagesOk, ProcessesOk, LocksOk, DistinctBindings, TableValid, Undisturbed, Monotone, ProcessOk, MessageOk, TableAdvances;
    var s' := s.(told := s.told + {m});
    Parts(s);
    SameRowsKeep(s, s');
    SameProcesses(s, s');
    MessageStays(s, s', m);
    SameTablesUndisturbedAll(s, s');
    InvFromParts(s, s');
  }

  /** Telling Core m; the process then ends, or carries on as q. */
  lemma SendKeeps(s: State, p: ProcessId, m: Message, q: Process)
    requires Inv(s) && p in s.processes && MessageOk(s, m)
    requires !HoldsLock(s.processes[p]) && !HoldsLock(q) && q.id == s.processes[p].id
    requires q.AbsenceMarker? || q.SettlementMarker?
    requires ProcessOk(s, p, q)
    ensures var s1 := s.(told := s.told + {m});
            && Inv(Remove(s1, p)) && Monotone(s, Remove(s1, p))
            && Inv(s1.(processes := s.processes[p := q])) && Monotone(s, s1.(processes := s.processes[p := q]))
  {
    TellKeeps(s, m);
    var s1 := s.(told := s.told + {m});
    assert ProcessOk(s1, p, q);
    hide Inv, Monotone, ProcessOk, MessageOk;
    RemoveKeeps(s1, p);
    MonotoneTransitive(s, s1, Remove(s1, p));
    AdvanceProcessKeeps(s1, p, q);
    MonotoneTransitive(s, s1, s1.(processes := s.processes[p := q]));
  }

  lemma MarkKeeps(s: State, p: ProcessId, outcome: Outcome, epoch: nat)
    requires Inv(s) && p in s.processes && s.processes[p].id !in s.locks
    ensures var s' := Remove(s.(receipts := Settled(s.receipts, s.processes[p].id, outcome, epoch).0), p); Inv(s') && Monotone(s, s')
  {
    var id := s.processes[p].id;
    var t := Settled(s.receipts, id, outcome, epoch).0;
    hide Inv, Monotone, TableValid, HarmlessChange, Settled;
    Parts(s);
    SettledIsHarmless(s, id, outcome, epoch);
    ReceiptChangeKeeps(s, t);
    var s1 := s.(receipts := t);
    RemoveKeeps(s1, p);
    MonotoneTransitive(s, s1, Remove(s1, p));
  }

  lemma SealLocallyKeeps(s: State, p: ProcessId)
    requires Inv(s) && p in s.processes
    ensures var s' := StepCore(s, SealLocally(p)); Inv(s') && Monotone(s, s')
  {
    hide Inv, Monotone, TableValid, HarmlessChange;
    var q := s.processes[p];
    MonotoneSelf(s);
    Parts(s);
    if q.Sealer? && q.id !in s.locks {
      var u := Sealed(s.receipts, q.id, q.intent, q.epoch);
      if u.1.Err? {
        RemoveKeeps(s, p);
      } else {
        var s1 := s.(receipts := u.0);
        SealedIsHarmless(s, q.id, q.intent, q.epoch);
        ReceiptChangeKeeps(s, u.0);
        AdvanceProcessKeeps(s1, p, AbsenceSender(q.id));
        MonotoneTransitive(s, s1, StepCore(s, SealLocally(p)));
      }
    }
  }

  lemma StepCoreKeeps(s: State, a: Action)
    requires a.SealLocally? || a.SendAbsence? || a.MarkAbsence? || a.SendSettlement? || a.MarkSettlement?
    requires Inv(s) && a.p in s.processes
    ensures Inv(StepCore(s, a)) && Monotone(s, StepCore(s, a))
  {
    hide Inv, Monotone;
    var q := s.processes[a.p];
    ProcessOf(s, a.p);
    MonotoneSelf(s);
    match a
    case SealLocally(p) => SealLocallyKeeps(s, p);
    case SendAbsence(p, e) => if q.AbsenceSender? { SendKeeps(s, p, AbsentAt(q.id), AbsenceMarker(q.id, e)); }
    case MarkAbsence(p) => if q.AbsenceMarker? && q.id !in s.locks { MarkKeeps(s, p, WasAbsent, q.epoch); }
    case SendSettlement(p, e) => if q.Settler? { SendKeeps(s, p, EndedAt(q.id, q.outcome), SettlementMarker(q.id, q.outcome, q.epoch)); }
    case MarkSettlement(p) => if q.SettlementMarker? && q.id !in s.locks { MarkKeeps(s, p, q.outcome, q.epoch); }
  }

  lemma StatusChangeIsMonotone(s: State, s': State)
    requires s'.receipts == s.receipts && s'.bound == s.bound && s'.told == s.told && forall d :: d in s.ended ==> d in s'.ended && s'.ended[d] == s.ended[d]
    ensures Monotone(s, s')
  {
  }

  lemma SameBindings(s: State, s': State)
    requires LocksOk(s) && DistinctBindings(s) && BindingsOk(s)
    requires s'.processes == s.processes && s'.locks == s.locks && s'.bound == s.bound && s'.receipts == s.receipts && s'.issued == s.issued
    ensures LocksOk(s') && DistinctBindings(s') && BindingsOk(s')
  {
    forall d | d in s'.bound ensures NamesReceipt(s', d) { assert NamesReceipt(s, d); }
    forall id | id in s'.receipts ensures NamesDeployment(s', id) { assert NamesDeployment(s, id); }
  }

  lemma StatusChangeKeeps(s: State, deployments: map<DeploymentId, Deployment>, ended: map<DeploymentId, Outcome>)
    requires Inv(s) && OutcomesOk(s.(deployments := deployments, ended := ended))
    requires forall d :: d in s.ended ==> d in ended && ended[d] == s.ended[d]
    ensures var s' := s.(deployments := deployments, ended := ended); Inv(s') && Monotone(s, s')
  {
    hide Inv, BindingsOk, OutcomesOk, MessagesOk, ProcessesOk, LocksOk, DistinctBindings, TableValid, Undisturbed, Monotone, ProcessOk, MessageOk, TableAdvances;
    var s' := s.(deployments := deployments, ended := ended);
    Parts(s);
    StatusChangeIsMonotone(s, s');
    SameBindings(s, s');
    SameTablesUndisturbedAll(s, s');
    InvFromParts(s, s');
  }

  lemma StartKeeps(s: State, a: Action)
    requires a.Begin? || a.ReconcileSeal? || a.ReadForSettlement?
    requires Inv(s)
    ensures Inv(StepRest(s, a)) && Monotone(s, StepRest(s, a))
  {
    var s' := StepRest(s, a);
    if s' == s {
      assert Monotone(s, s);
    } else {
      if a.ReadForSettlement? { assert RowValid(s.receipts[a.id]); }
      assert ProcessOk(s, a.p, s'.processes[a.p]);
      hide Inv, Monotone, ProcessOk;
      AdvanceProcessKeeps(s, a.p, s'.processes[a.p]);
    }
  }

  lemma EndKeepsOutcomes(s: State, a: Action)
    requires a.CompleteDeployment? || a.DeleteDeployment?
    requires OutcomesOk(s)
    ensures var s' := StepRest(s, a);
            OutcomesOk(s') && s' == s.(deployments := s'.deployments, ended := s'.ended) && forall d :: d in s.ended ==> d in s'.ended && s'.ended[d] == s.ended[d]
  {
  }

  lemma EndKeeps(s: State, a: Action)
    requires a.CompleteDeployment? || a.DeleteDeployment?
    requires Inv(s)
    ensures Inv(StepRest(s, a)) && Monotone(s, StepRest(s, a))
  {
    var s' := StepRest(s, a);
    EndKeepsOutcomes(s, a);
    hide Inv, Monotone, OutcomesOk;
    StatusChangeKeeps(s, s'.deployments, s'.ended);
  }

  lemma StepRestKeeps(s: State, a: Action)
    requires a.Begin? || a.ReconcileSeal? || a.ReadForSettlement? || a.CompleteDeployment? || a.DeleteDeployment?
    requires Inv(s)
    ensures Inv(StepRest(s, a)) && Monotone(s, StepRest(s, a))
  {
    hide Inv, Monotone, StepRest;
    if a.CompleteDeployment? || a.DeleteDeployment? { EndKeeps(s, a); } else { StartKeeps(s, a); }
  }

  /** Every step keeps the invariant and takes nothing back. */
  lemma StepKeeps(s: State, a: Action)
    requires Inv(s)
    ensures Inv(Step(s, a)) && Monotone(s, Step(s, a))
  {
    hide Inv, Monotone, StepAttempt, StepCore, StepRest, Remove;
    MonotoneSelf(s);
    match a
    case Begin(_, _, _) => StepRestKeeps(s, a);
    case ReconcileSeal(_, _) => StepRestKeeps(s, a);
    case ReadForSettlement(_, _, _) => StepRestKeeps(s, a);
    case CompleteDeployment(_, _) => StepRestKeeps(s, a);
    case DeleteDeployment(_) => StepRestKeeps(s, a);
    case Crash(p) => if p in s.processes { RemoveKeeps(s, p); }
    case SealLocally(p) => if p in s.processes { StepCoreKeeps(s, a); }
    case SendAbsence(p, _) => if p in s.processes { StepCoreKeeps(s, a); }
    case MarkAbsence(p) => if p in s.processes { StepCoreKeeps(s, a); }
    case SendSettlement(p, _) => if p in s.processes { StepCoreKeeps(s, a); }
    case MarkSettlement(p) => if p in s.processes { StepCoreKeeps(s, a); }
    case _ => if a.p in s.processes && s.processes[a.p].Attempt? { StepAttemptKeeps(s, a); }
  }

  lemma MonotoneTransitive(s0: State, s1: State, s2: State)
    requires Monotone(s0, s1) && Monotone(s1, s2)
    ensures Monotone(s0, s2)
  {
    forall id | id in s0.receipts ensures id in s2.receipts && Advances(s0.receipts[id], s2.receipts[id]) {
      assert Advances(s0.receipts[id], s1.receipts[id]) && Advances(s1.receipts[id], s2.receipts[id]);
    }
  }

  /** Every run keeps the invariant and takes nothing back. */
  lemma {:induction false} RunKeeps(s: State, actions: seq<Action>)
    requires Inv(s)
    ensures Inv(Run(s, actions)) && Monotone(s, Run(s, actions))
    decreases |actions|
  {
    if actions != [] {
      var s1 := Step(s, actions[0]);
      StepKeeps(s, actions[0]);
      RunKeeps(s1, actions[1..]);
      MonotoneTransitive(s, s1, Run(s1, actions[1..]));
    }
  }

  // ---------------------------------------------------------------- theorems

  /** The reachable states: whatever happened so far. */
  function After(actions: seq<Action>): (s: State) {
    Run(Initial, actions)
  }

  lemma AfterIsInvariant(actions: seq<Action>)
    ensures Inv(After(actions))
  {
    RunKeeps(Initial, actions);
  }

  /** In every run a receipt changes disposition at most once, and only away from Pending. */
  lemma ReceiptLeavesPendingOnce(before: seq<Action>, more: seq<Action>, id: AdmissionId)
    requires id in After(before).receipts
    ensures var r, r' := After(before).receipts[id], Run(After(before), more).receipts;
            id in r' && Advances(r, r'[id]) && RowValid(r'[id])
  {
    AfterIsInvariant(before);
    RunKeeps(After(before), more);
  }

  /** Once Core was told "absent", no Deployment of that admission is committed, then or ever after. */
  lemma AbsenceIsFinal(before: seq<Action>, more: seq<Action>, id: AdmissionId, d: DeploymentId)
    requires AbsentAt(id) in After(before).told
    ensures var s := Run(After(before), more); !(d in s.bound && s.bound[d] == id) && !(d in s.deployments && s.deployments[d].admission == id)
  {
    AfterIsInvariant(before);
    RunKeeps(After(before), more);
    var s := Run(After(before), more);
    assert MessageOk(s, AbsentAt(id));
    assert RowValid(s.receipts[id]);
  }

  /** Core is told "succeeded" or "failed" only for the one Deployment bound to the admission, after it ended that way. */
  lemma SettlementIsTruthful(actions: seq<Action>, id: AdmissionId, outcome: Outcome)
    requires EndedAt(id, outcome) in After(actions).told
    ensures var s := After(actions);
            && outcome != WasAbsent
            && exists d :: d in s.bound && s.bound[d] == id && d in s.ended && s.ended[d] == outcome
                 && (d in s.deployments ==> s.deployments[d].status == Ended(outcome))
                 && (forall d' :: d' in s.bound && s.bound[d'] == id ==> d' == d)
  {
    AfterIsInvariant(actions);
    var s := After(actions);
    assert MessageOk(s, EndedAt(id, outcome));
    var d := s.receipts[id].deployment.value;
    assert d in s.bound && s.bound[d] == id;
  }

  /** Core never hears two different endings of one admission. */
  lemma CoreHearsOneEnding(actions: seq<Action>, id: AdmissionId, outcome: Outcome, outcome': Outcome)
    requires EndedAt(id, outcome) in After(actions).told
    ensures AbsentAt(id) !in After(actions).told
    ensures EndedAt(id, outcome') in After(actions).told ==> outcome' == outcome
  {
    AfterIsInvariant(actions);
    var s := After(actions);
    assert MessageOk(s, EndedAt(id, outcome));
    assert AbsentAt(id) in s.told ==> MessageOk(s, AbsentAt(id));
    assert EndedAt(id, outcome') in s.told ==> MessageOk(s, EndedAt(id, outcome'));
  }

  /**
   Recovery of one receipt: one that never became a Deployment is settled by its own round of the reconciler, whatever crashes
   left it behind, if no open transaction holds its lock and Core answers (with the recorded epoch, if any).
   */
  lemma ReconcilerSettlesAbsence(actions: seq<Action>, p: ProcessId, id: AdmissionId, epoch: nat)
    requires var s := After(actions);
             p !in s.processes && id in s.receipts && !s.receipts[id].settled && s.receipts[id].disposition != Committed && id !in s.locks
             && epoch > 0 && (s.receipts[id].epoch == 0 || s.receipts[id].epoch == epoch)
    ensures var s' := Run(After(actions), [ReconcileSeal(p, id), SealLocally(p), SendAbsence(p, epoch), MarkAbsence(p)]);
            id in s'.receipts && s'.receipts[id].settled && s'.receipts[id].disposition == Absent && AbsentAt(id) in s'.told && p !in s'.processes
  {
    var s := After(actions);
    AfterIsInvariant(actions);
    assert RowValid(s.receipts[id]);
    hide Inv, Run, Step, After;
    FourSteps(s, ReconcileSeal(p, id), SealLocally(p), SendAbsence(p, epoch), MarkAbsence(p));
    SealPass(s, p, id);
    SettlePass(Step(Step(s, ReconcileSeal(p, id)), SealLocally(p)), p, id, epoch);
  }

  /** The local half of the pass: the receipt is sealed absent. */
  lemma SealPass(s: State, p: ProcessId, id: AdmissionId)
    requires p !in s.processes && id in s.receipts && !s.receipts[id].settled && s.receipts[id].disposition != Committed && id !in s.locks
    requires RowValid(s.receipts[id])
    ensures var s' := Step(Step(s, ReconcileSeal(p, id)), SealLocally(p));
            && p in s'.processes && s'.processes[p] == AbsenceSender(id) && s'.locks == s.locks
            && id in s'.receipts && s'.receipts[id].disposition == Absent && !s'.receipts[id].settled && s'.receipts[id].deployment.None?
            && s'.receipts[id].epoch == s.receipts[id].epoch && s'.receipts[id].outcome == Some(WasAbsent)
  {
    hide Inv, StepAttempt;
  }

  /** The remote half: Core hears of the absence, and the receipt records that it has. */
  lemma SettlePass(s: State, p: ProcessId, id: AdmissionId, epoch: nat)
    requires p in s.processes && s.processes[p] == AbsenceSender(id) && id !in s.locks
    requires id in s.receipts && s.receipts[id].disposition == Absent && !s.receipts[id].settled && s.receipts[id].outcome == Some(WasAbsent)
    requires epoch > 0 && (s.receipts[id].epoch == 0 || s.receipts[id].epoch == epoch)
    ensures var s' := Step(Step(s, SendAbsence(p, epoch)), MarkAbsence(p));
            id in s'.receipts && s'.receipts[id].settled && s'.receipts[id].disposition == Absent && AbsentAt(id) in s'.told && p !in s'.processes
  {
    hide Inv, StepAttempt;
    var s1 := Step(s, SendAbsence(p, epoch));
    assert s1.processes[p] == AbsenceMarker(id, epoch) && s1.receipts == s.receipts && s1.locks == s.locks;
  }

  lemma FourSteps(s: State, a: Action, b: Action, c: Action, d: Action)
    ensures Run(s, [a, b, c, d]) == Step(Step(Step(Step(s, a), b), c), d)
  {
    hide Step;
    assert [a, b, c, d][1..] == [b, c, d] && [b, c, d][1..] == [c, d] && [c, d][1..] == [d] && [d][1..] == [];
    var s1, s2, s3 := Step(s, a), Step(Step(s, a), b), Step(Step(Step(s, a), b), c);
    assert Run(s3, [d]) == Run(Step(s3, d), []);
    assert Run(s2, [c, d]) == Run(s3, [d]);
    assert Run(s1, [b, c, d]) == Run(s2, [c, d]);
  }

  /** The way to a Deployment is open: an undisturbed attempt that Core authorizes commits its Deployment together with the bound receipt. */
  lemma AuthorizedAttemptCommits(s: State, p: ProcessId, id: AdmissionId, intent: Intent, epoch: nat, d: DeploymentId)
    requires p !in s.processes && id !in s.receipts && id !in s.locks && epoch > 0 && d !in s.issued
    ensures var s' := Run(s, [Begin(p, id, intent), MakeDurable(p)] + [LockReceipt(p), AuthorizeReply(p, epoch), CreateAndBind(p, d), Commit(p, false)]);
            && s'.receipts == s.receipts[id := Receipt(intent, Committed, Some(d), epoch, None, false)]
            && s'.deployments == s.deployments[d := Deployment(id, Executing)] && s'.bound == s.bound[d := id]
            && s'.processes == s.processes && s'.locks == s.locks && s'.told == s.told
  {
    hide Step;
    var s2 := Step(Step(s, Begin(p, id, intent)), MakeDurable(p));
    PreparedHalf(s, p, id, intent);
    AuthorizedHalf(s2, p, id, intent, epoch, d);
    assert s2.processes - {p} == s.processes;
    FourSteps(s2, LockReceipt(p), AuthorizeReply(p, epoch), CreateAndBind(p, d), Commit(p, false));
    TwoStepsFirst(s, Begin(p, id, intent), MakeDurable(p), [LockReceipt(p), AuthorizeReply(p, epoch), CreateAndBind(p, d), Commit(p, false)]);
  }

  lemma PreparedHalf(s: State, p: ProcessId, id: AdmissionId, intent: Intent)
    requires p !in s.processes && id !in s.receipts && id !in s.locks
    ensures Step(Step(s, Begin(p, id, intent)), MakeDurable(p)) ==
              s.(receipts := s.receipts[id := Receipt(intent, Pending, None, 0, None, false)], processes := s.processes[p := Attempt(id, intent, 0, Durable)])
  {
    hide StepCore, Bound, RollBack;
    var s1 := s.(processes := s.processes[p := Attempt(id, intent, 0, Starting)]);
    assert Step(s, Begin(p, id, intent)) == s1;
    assert s1.processes[p := Attempt(id, intent, 0, Durable)] == s.processes[p := Attempt(id, intent, 0, Durable)];
  }

  lemma AuthorizedHalf(s: State, p: ProcessId, id: AdmissionId, intent: Intent, epoch: nat, d: DeploymentId)
    requires p in s.processes && s.processes[p] == Attempt(id, intent, 0, Durable) && id !in s.locks && epoch > 0 && d !in s.issued
    requires id in s.receipts && s.receipts[id] == Receipt(intent, Pending, None, 0, None, false)
    ensures var s' := Step(Step(Step(Step(s, LockReceipt(p)), AuthorizeReply(p, epoch)), CreateAndBind(p, d)), Commit(p, false));
            && s'.receipts == s.receipts[id := Receipt(intent, Committed, Some(d), epoch, None, false)]
            && s'.deployments == s.deployments[d := Deployment(id, Executing)] && s'.bound == s.bound[d := id]
            && s'.processes == s.processes - {p} && s'.locks == s.locks && s'.told == s.told
  {
    hide StepCore, StepRest;
    var s1 := Step(s, LockReceipt(p));
    var s2 := Step(s1, AuthorizeReply(p, epoch));
    assert s2.processes[p] == Attempt(id, intent, epoch, Authorized) && s2.receipts == s.receipts;
    var s3 := Step(s2, CreateAndBind(p, d));
    assert s3.processes[p] == Attempt(id, intent, epoch, Binding(d)) && s3.receipts == s.receipts;
    assert s3.processes - {p} == s.processes - {p} && s3.locks == s.locks[id := p] && s.locks[id := p] - {id} == s.locks;
  }

  lemma TwoStepsFirst(s: State, a: Action, b: Action, more: seq<Action>)
    ensures Run(s, [a, b] + more) == Run(Step(Step(s, a), b), more)
  {
    hide Step;
    assert ([a, b] + more)[1..] == [b] + more && ([b] + more)[1..] == more;
    assert Run(Step(s, a), [b] + more) == Run(Step(Step(s, a), b), more);
  }
}
