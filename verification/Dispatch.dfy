/**
 Plugin dispatch: admission of an external Deployment under one dispatch key, and the dispatch read.

 Both lock the dispatch key first.  Admission then asks Core to authorize the concrete operation and
 holds the lock until it commits or rolls back.  Keys share neither lock nor row, so the machine
 follows one key.  Core is unconstrained except for one assumed promise: once it has committed the
 revocation of the dispatch it authorizes nothing under it.
 */
module Dispatch {
  import opened Basics

  type ProcessId = nat
  type DeploymentId = nat

  datatype ServiceAction = Admission | Rollback

  /** The parts of a request that Core authorizes and the receipt repeats. */
  datatype Request = Request(operation: string, fence: nat, action: ServiceAction, digest: string, actor: string, project: nat, environment: nat)

  datatype Receipt = Receipt(request: Request, deployment: DeploymentId)

  /** Waiting for the key; holding it with the receipt just read; answered by Core; Deployment and receipt written, not committed. */
  datatype Phase =
    | Waiting
    | Holding(found: Option<Receipt>)
    | Answered(found: Option<Receipt>, grant: Option<Request>)
    | Created(deployment: DeploymentId)

  datatype Process =
    | Admit(request: Request, phase: Phase)
    | Read(environment: nat, afterRevocation: bool)

  /** What a caller of Admit hears: a new Deployment, a replay, or a refusal. */
  datatype Reply = New(deployment: DeploymentId) | Replayed(deployment: DeploymentId) | Refused

  /**
   deployments are the committed Deployments created under the key.  missing remembers the Environments
   for which a read begun after the revocation answered "dispatch_not_found".
   */
  datatype State = State(
    revoked: bool,
    receipt: Option<Receipt>,
    deployments: set<DeploymentId>,
    issued: set<DeploymentId>,
    lock: Option<ProcessId>,
    processes: map<ProcessId, Process>,
    missing: set<nat>,
    replies: set<(Request, Reply)>)

  const Initial := State(false, None, {}, {}, None, map[], {}, {})

  datatype Event =
    | Revoke
    | BeginAdmit(p: ProcessId, request: Request)
    | LockKey(p: ProcessId)
    | CoreAnswers(p: ProcessId, grant: Option<Request>)
    | Decide(p: ProcessId, deployment: DeploymentId)
    | Commit(p: ProcessId)
    | Stop(p: ProcessId)                                 // error, timeout or crash: the transaction rolls back
    | BeginRead(p: ProcessId, environment: nat)
    | ReadReceipt(p: ProcessId)

  predicate HoldsKey(q: Process) {
    q.Admit? && !q.phase.Waiting?
  }

  function End(s: State, p: ProcessId): State
    requires p in s.processes
  {
    s.(processes := s.processes - {p}, lock := if HoldsKey(s.processes[p]) then None else s.lock)
  }

  function Say(s: State, request: Request, reply: Reply): State {
    s.(replies := s.replies + {(request, reply)})
  }

  /** externalDeploymentAuthorizationMatches, then externalDeploymentReceiptMatches or the ordinary creation path. */
  function StepDecide(s: State, p: ProcessId, d: DeploymentId): State
    requires p in s.processes && s.processes[p].Admit? && s.processes[p].phase.Answered?
  {
    var q := s.processes[p];
    if q.phase.grant != Some(q.request) then Say(End(s, p), q.request, Refused)
    else if q.phase.found.Some? then
      if q.phase.found.value.request != q.request then Say(End(s, p), q.request, Refused)
      else Say(End(s, p), q.request, Replayed(q.phase.found.value.deployment))
    else if d in s.issued then s
    else s.(issued := s.issued + {d}, processes := s.processes[p := q.(phase := Created(d))])
  }

  function StepProcess(s: State, e: Event): State
    requires e.LockKey? || e.CoreAnswers? || e.Decide? || e.Commit? || e.ReadReceipt?
    requires e.p in s.processes
  {
    var q := s.processes[e.p];
    match e
    case LockKey(p) =>
      if !q.Admit? || !q.phase.Waiting? || s.lock.Some? then s
      else s.(lock := Some(p), processes := s.processes[p := q.(phase := Holding(s.receipt))])
    case CoreAnswers(p, grant) =>
      if !q.Admit? || !q.phase.Holding? then s
      else s.(processes := s.processes[p := q.(phase := Answered(q.phase.found, if s.revoked then None else grant))])
    case Decide(p, d) =>
      if !q.Admit? || !q.phase.Answered? then s else StepDecide(s, p, d)
    case Commit(p) =>
      if !q.Admit? || !q.phase.Created? then s
      else
        var d := q.phase.deployment;
        Say(End(s, p).(receipt := Some(Receipt(q.request, d)), deployments := s.deployments + {d}), q.request, New(d))
    case ReadReceipt(p) =>
      if !q.Read? || s.lock.Some? then s
      else if q.afterRevocation && !(s.receipt.Some? && s.receipt.value.request.environment == q.environment) then
        End(s, p).(missing := s.missing + {q.environment})
      else End(s, p)
  }

  function Step(s: State, e: Event): State {
    match e
    case Revoke => s.(revoked := true)
    case BeginAdmit(p, request) =>
      if p in s.processes then s else s.(processes := s.processes[p := Admit(request, Waiting)])
    case BeginRead(p, environment) =>
      if p in s.processes then s else s.(processes := s.processes[p := Read(environment, s.revoked)])
    case Stop(p) => if p in s.processes then End(s, p) else s
    case _ => if e.p in s.processes then StepProcess(s, e) else s
  }

  function Run(s: State, events: seq<Event>): State
    decreases |events|
  {
    if events == [] then s else Run(Step(s, events[0]), events[1..])
  }

  function After(events: seq<Event>): State {
    Run(Initial, events)
  }

  // ---------------------------------------------------------------- invariant

  /** A process that Core has authorized and that could still commit. */
  predicate Authorized(q: Process) {
    q.Admit? && (q.phase.Created? || (q.phase.Answered? && q.phase.grant.Some?))
  }

  predicate ProcessOk(s: State, p: ProcessId, q: Process) {
    && (HoldsKey(q) ==> s.lock == Some(p))
    && (q.Admit? && (q.phase.Holding? || q.phase.Answered?) ==> q.phase.found == s.receipt)
    && (q.Admit? && q.phase.Created? ==> s.receipt.None? && q.phase.deployment in s.issued && q.phase.deployment !in s.deployments)
    && (q.Read? && q.afterRevocation ==> s.revoked)
  }

  predicate Inv(s: State) {
    && (forall p :: p in s.processes ==> ProcessOk(s, p, s.processes[p]))
    && (s.lock.Some? ==> s.lock.value in s.processes && HoldsKey(s.processes[s.lock.value]))
    && s.deployments == (if s.receipt.Some? then {s.receipt.value.deployment} else {})
    && s.deployments <= s.issued
    && (s.missing != {} ==>
          && s.revoked
          && (s.receipt.None? ==> forall p :: p in s.processes ==> !Authorized(s.processes[p])))
    && (s.receipt.Some? ==> s.receipt.value.request.environment !in s.missing)
    && (forall r :: r in s.replies ==>
          r.1 == Refused || (s.receipt.Some? && s.receipt.value.request == r.0 && s.receipt.value.deployment == r.1.deployment))
  }

  /** What the step promises: the invariant, and nothing said or committed is taken back. */
  predicate Kept(s: State, s': State) {
    && Inv(s')
    && (s.receipt.Some? ==> s'.receipt == s.receipt)
    && s.missing <= s'.missing && s.replies <= s'.replies
  }

  /** While a process holds the key no other process does. */
  lemma SoleHolder(s: State, p: ProcessId, p': ProcessId)
    requires Inv(s) && p in s.processes && p' in s.processes && HoldsKey(s.processes[p]) && HoldsKey(s.processes[p'])
    ensures p == p'
  {
    assert ProcessOk(s, p, s.processes[p]) && ProcessOk(s, p', s.processes[p']);
  }

  lemma EndKeeps(s: State, p: ProcessId)
    requires Inv(s) && p in s.processes
    ensures Kept(s, End(s, p))
  {
    var s' := End(s, p);
    forall p' | p' in s'.processes ensures ProcessOk(s', p', s'.processes[p']) {
      assert ProcessOk(s, p', s.processes[p']);
      if HoldsKey(s.processes[p]) && HoldsKey(s.processes[p']) { SoleHolder(s, p, p'); }
    }
    if s'.lock.Some? && s'.lock.value == p { assert ProcessOk(s, p, s.processes[p]); }
  }

  /** Process p goes on in a phase that holds the key exactly if it held it before. */
  lemma AdvanceKeeps(s: State, p: ProcessId, q: Process, issued: set<DeploymentId>)
    requires Inv(s) && s.issued <= issued
    requires if p in s.processes then HoldsKey(q) == HoldsKey(s.processes[p]) else !HoldsKey(q)
    requires ProcessOk(s.(issued := issued), p, q)
    requires s.missing != {} && Authorized(q) ==> s.receipt.Some?
    ensures Kept(s, s.(issued := issued, processes := s.processes[p := q]))
  {
    var s' := s.(issued := issued, processes := s.processes[p := q]);
    forall p' | p' in s'.processes ensures ProcessOk(s', p', s'.processes[p']) {
      if p' != p { assert ProcessOk(s, p', s.processes[p']); }
    }
  }

  lemma LockKeyKeeps(s: State, p: ProcessId)
    requires Inv(s) && p in s.processes
    ensures Kept(s, StepProcess(s, LockKey(p)))
  {
    var s' := StepProcess(s, LockKey(p));
    forall p' | p' in s'.processes ensures ProcessOk(s', p', s'.processes[p']) {
      assert ProcessOk(s, p', s.processes[p']);
    }
  }

  lemma CommitKeeps(s: State, p: ProcessId)
    requires Inv(s) && p in s.processes
    ensures Kept(s, StepProcess(s, Commit(p)))
  {
    var s' := StepProcess(s, Commit(p));
    assert ProcessOk(s, p, s.processes[p]);
    if s' != s {
      assert s.missing == {} by { if s.missing != {} { assert Authorized(s.processes[p]); } }
      forall p' | p' in s'.processes ensures ProcessOk(s', p', s'.processes[p']) {
        assert ProcessOk(s, p', s.processes[p']);
        if HoldsKey(s.processes[p']) { SoleHolder(s, p, p'); }
      }
    }
  }

  lemma ReadKeeps(s: State, p: ProcessId)
    requires Inv(s) && p in s.processes
    ensures Kept(s, StepProcess(s, ReadReceipt(p)))
  {
    assert ProcessOk(s, p, s.processes[p]);
    EndKeeps(s, p);
    if s.lock.None? {
      forall p' | p' in s.processes ensures !HoldsKey(s.processes[p']) {
        assert ProcessOk(s, p', s.processes[p']);
      }
    }
  }

  lemma DecideKeeps(s: State, p: ProcessId, d: DeploymentId)
    requires Inv(s) && p in s.processes
    ensures Kept(s, StepProcess(s, Decide(p, d)))
  {
    var q := s.processes[p];
    assert ProcessOk(s, p, q);
    EndKeeps(s, p);
    if q.Admit? && q.phase.Answered? && q.phase.grant == Some(q.request) && q.phase.found.None? && d !in s.issued {
      AdvanceKeeps(s, p, q.(phase := Created(d)), s.issued + {d});
    }
  }

  lemma StepKeeps(s: State, e: Event)
    requires Inv(s)
    ensures Kept(s, Step(s, e))
  {
    match e
    case Revoke =>
      forall p | p in s.processes ensures ProcessOk(Step(s, e), p, s.processes[p]) { assert ProcessOk(s, p, s.processes[p]); }
    case BeginAdmit(p, request) => if p !in s.processes { AdvanceKeeps(s, p, Admit(request, Waiting), s.issued); }
    case BeginRead(p, environment) => if p !in s.processes { AdvanceKeeps(s, p, Read(environment, s.revoked), s.issued); }
    case Stop(p) => if p in s.processes { EndKeeps(s, p); }
    case LockKey(p) => if p in s.processes { LockKeyKeeps(s, p); }
    case CoreAnswers(p, grant) =>
      if p in s.processes && s.processes[p].Admit? && s.processes[p].phase.Holding? {
        var q := s.processes[p];
        assert ProcessOk(s, p, q);
        AdvanceKeeps(s, p, q.(phase := Answered(q.phase.found, if s.revoked then None else grant)), s.issued);
      }
    case Decide(p, d) => if p in s.processes { DecideKeeps(s, p, d); }
    case Commit(p) => if p in s.processes { CommitKeeps(s, p); }
    case ReadReceipt(p) => if p in s.processes { ReadKeeps(s, p); }
  }

  lemma {:induction false} RunKeeps(s: State, events: seq<Event>)
    requires Inv(s)
    ensures Kept(s, Run(s, events))
    decreases |events|
  {
    if events != [] {
      StepKeeps(s, events[0]);
      RunKeeps(Step(s, events[0]), events[1..]);
    }
  }

  // ---------------------------------------------------------------- theorems

  /**
   Revocation is final: if a read begun after the revocation found no receipt for an Environment, no later step of
   any admission ever commits a receipt or Deployment of this key in that Environment.
   */
  lemma RevocationIsFinal(before: seq<Event>, more: seq<Event>, environment: nat)
    requires environment in After(before).missing
    ensures var s := Run(After(before), more);
            s.receipt.Some? ==> s.receipt.value.request.environment != environment && s.receipt == After(before).receipt
    ensures After(before).receipt.None? ==> var s := Run(After(before), more); s.receipt.None? && s.deployments == {}
  {
    RunKeeps(Initial, before);
    var s := After(before);
    RunKeeps(s, more);
    if s.receipt.None? { NothingCommits(s, more); }
  }

  lemma {:induction false} NothingCommits(s: State, events: seq<Event>)
    requires Inv(s) && s.missing != {} && s.receipt.None?
    ensures Run(s, events).receipt.None? && Run(s, events).deployments == {}
    decreases |events|
  {
    if events != [] {
      var s1 := Step(s, events[0]);
      StepKeeps(s, events[0]);
      if events[0].Commit? && events[0].p in s.processes { assert !Authorized(s.processes[events[0].p]); }
      NothingCommits(s1, events[1..]);
    }
  }

  /** A receipt, once committed, never changes, and it is the only one: one Deployment per key in every run. */
  lemma ReceiptIsFinal(before: seq<Event>, more: seq<Event>)
    requires After(before).receipt.Some?
    ensures var s := Run(After(before), more);
            s.receipt == After(before).receipt && s.deployments == {After(before).receipt.value.deployment}
  {
    RunKeeps(Initial, before);
    RunKeeps(After(before), more);
  }

  /** Every caller that is not refused hears the same Deployment, the one created for exactly its request. */
  lemma CallersAgree(events: seq<Event>, request: Request, reply: Reply, request': Request, reply': Reply)
    requires (request, reply) in After(events).replies && (request', reply') in After(events).replies
    requires reply != Refused && reply' != Refused
    ensures request == request' && reply.deployment == reply'.deployment
    ensures After(events).deployments == {reply.deployment}
  {
    RunKeeps(Initial, events);
    var s := After(events);
    assert (request, reply) in s.replies && (request', reply') in s.replies;
  }

  // ---------------------------------------------------------------- what an undisturbed admission does

  /** A granted request under a free key becomes a receipt and its Deployment, and the key is free again. */
  lemma GrantedRequestIsAdmitted(s: State, p: ProcessId, request: Request, d: DeploymentId)
    requires p !in s.processes && s.lock.None? && !s.revoked && s.receipt.None? && d !in s.issued
    ensures var s' := Run(s, [BeginAdmit(p, request), LockKey(p), CoreAnswers(p, Some(request)), Decide(p, d), Commit(p)]);
            s'.receipt == Some(Receipt(request, d)) && s'.deployments == s.deployments + {d} && s'.lock.None? && p !in s'.processes
            && (request, New(d)) in s'.replies
  {
    var s2 := Step(Step(s, BeginAdmit(p, request)), LockKey(p));
    assert s2.processes[p] == Admit(request, Holding(None)) && s2.lock == Some(p);
    var s3 := Step(s2, CoreAnswers(p, Some(request)));
    assert s3.processes[p] == Admit(request, Answered(None, Some(request)));
    var s4 := Step(s3, Decide(p, d));
    assert s4.processes[p] == Admit(request, Created(d));
    hide Step;
    RunFive(s, BeginAdmit(p, request), LockKey(p), CoreAnswers(p, Some(request)), Decide(p, d), Commit(p));
  }

  /** Repeating an admitted request answers with the same Deployment; any other request under the key is refused. */
  lemma RepeatedRequestIsReplayed(s: State, p: ProcessId, request: Request, d: DeploymentId)
    requires p !in s.processes && s.lock.None? && !s.revoked && s.receipt.Some?
    ensures var s' := Run(s, [BeginAdmit(p, request), LockKey(p), CoreAnswers(p, Some(request)), Decide(p, d), Commit(p)]);
            s'.receipt == s.receipt && s'.deployments == s.deployments && s'.lock.None? && p !in s'.processes
            && (request, if s.receipt.value.request == request then Replayed(s.receipt.value.deployment) else Refused) in s'.replies
  {
    var s2 := Step(Step(s, BeginAdmit(p, request)), LockKey(p));
    assert s2.processes[p] == Admit(request, Holding(s.receipt)) && s2.lock == Some(p);
    var s3 := Step(s2, CoreAnswers(p, Some(request)));
    assert s3.processes[p] == Admit(request, Answered(s.receipt, Some(request)));
    var s4 := Step(s3, Decide(p, d));
    assert p !in s4.processes && s4.lock.None?;
    hide Step;
    RunFive(s, BeginAdmit(p, request), LockKey(p), CoreAnswers(p, Some(request)), Decide(p, d), Commit(p));
  }

  lemma RunFive(s: State, a: Event, b: Event, c: Event, d: Event, e: Event)
    ensures Run(s, [a, b, c, d, e]) == Step(Step(Step(Step(Step(s, a), b), c), d), e)
  {
    hide Step;
    assert [a, b, c, d, e][1..] == [b, c, d, e] && [b, c, d, e][1..] == [c, d, e] && [c, d, e][1..] == [d, e] && [d, e][1..] == [e] && [e][1..] == [];
    var s1, s2 := Step(s, a), Step(Step(s, a), b);
    var s3, s4 := Step(s2, c), Step(Step(s2, c), d);
    assert Run(s4, [e]) == Run(Step(s4, e), []);
    assert Run(s3, [d, e]) == Run(s4, [e]);
    assert Run(s2, [c, d, e]) == Run(s3, [d, e]);
    assert Run(s1, [b, c, d, e]) == Run(s2, [c, d, e]);
  }
}
