/**
 Rollback lineage of plugin operations.

 An operation's first forward Deployment in an Environment fixes one anchor: that forward and the
 base captured before it.  Every rollback of the operation goes to the anchor's base, starts only
 while its predecessor (the forward, or the failed rollback it retries) is the Environment's head,
 and becomes the head itself.  One event is one transaction; the dispatch-key, anchor and Environment
 locks serialize the transactions of one scope.  Legacy receipts without anchors may exist.
 */
module RollbackLineage {
  import opened Basics

  type Id = nat
  type Operation = string
  type Environment = nat

  datatype Scope = Scope(operation: Operation, environment: Environment)

  datatype Mode = Deploy | RollbackTo(base: Id) | Destroy

  datatype Status = Executing | Succeeded | Failed

  /** stopProven: a Runner result, a retained late result or an operator acknowledgement exists. */
  datatype Deployment = Deployment(environment: Environment, mode: Mode, status: Status, stopProven: bool)

  datatype Receipt =
    | Forward(scope: Scope, captured: Option<Id>)
    | Rollback(scope: Scope, base: Id, forward: Option<Id>, retryOf: Option<Id>)

  datatype Anchor = Anchor(first: Id, base: Id)

  datatype State = State(
    deployments: map<Id, Deployment>,
    receipts: map<Id, Receipt>,
    anchors: map<Scope, Anchor>,
    heads: map<Environment, Id>,
    issued: set<Id>)

  datatype Event =
    | AdmitForward(scope: Scope, assertedFirst: Option<Id>, snapshotBase: Id, newId: Id)
    | AdmitRollback(scope: Scope, assertedFirst: Option<Id>, target: Id, retryOf: Option<Id>, newId: Id)
    | Ordinary(environment: Environment, mode: Mode, newId: Id)
    | Complete(id: Id, succeeded: bool)
    | ProveStop(id: Id)
    | Discard(id: Id)

  // ---------------------------------------------------------------- guards, in the order of the code

  predicate Retained(s: State, id: Id, environment: Environment) {
    id in s.deployments && s.deployments[id].environment == environment
  }

  predicate SucceededBase(s: State, id: Id, environment: Environment) {
    Retained(s, id, environment) && s.deployments[id].status == Succeeded
  }

  /** The receipt verifies the anchor: it is a forward of this scope with this captured base. */
  predicate Verifies(s: State, scope: Scope, a: Anchor) {
    && a.first in s.receipts && s.receipts[a.first] == Forward(scope, Some(a.base))
    && Retained(s, a.first, scope.environment) && s.deployments[a.first].mode == Deploy
    && SucceededBase(s, a.base, scope.environment)
  }

  ghost predicate IsForwardOf(s: State, scope: Scope, id: Id) {
    id in s.receipts && s.receipts[id].Forward? && s.receipts[id].scope == scope
  }

  ghost predicate IsForwardIn(s: State, id: Id, environment: Environment) {
    id in s.receipts && s.receipts[id].Forward? && s.receipts[id].scope.environment == environment
  }

  /** operationRollbackAnchor: the stored anchor, the adoptable single legacy forward, or none; an unverifiable one is a conflict. */
  ghost function FindAnchor(s: State, scope: Scope): Result<Option<Anchor>> {
    if scope in s.anchors then
      if Verifies(s, scope, s.anchors[scope]) then Ok(Some(s.anchors[scope])) else Err(Conflict)
    else
      var forwards := set id | id in s.receipts && IsForwardOf(s, scope, id);
      if forwards == {} then Ok(None)
      else if first: Id :| forwards == {first} then
        if s.receipts[first].captured.None? then Err(Conflict)
        else
          var a := Anchor(first, s.receipts[first].captured.value);
          if Verifies(s, scope, a) then Ok(Some(a)) else Err(Conflict)
      else Err(Conflict)
  }

  /** CreateDeployment under the Environment lock: the head has ended, and the new Deployment becomes the head. */
  predicate Free(s: State, environment: Environment) {
    environment in s.heads && s.heads[environment] in s.deployments ==> s.deployments[s.heads[environment]].status != Executing
  }

  function Created(s: State, environment: Environment, mode: Mode, newId: Id): State {
    s.(deployments := s.deployments[newId := Deployment(environment, mode, Executing, false)],
       heads := s.heads[environment := newId], issued := s.issued + {newId})
  }

  /** The captured-base recovery guard of CreateDeployment. */
  predicate HeadAllows(s: State, environment: Environment, expected: Id, retry: bool, base: Id) {
    && environment in s.heads && s.heads[environment] == expected && Retained(s, expected, environment)
    && var d := s.deployments[expected];
       && d.status != Executing
       && (if retry then d.mode == RollbackTo(base) && d.status == Failed else d.mode == Deploy)
       && (d.status == Failed ==> d.stopProven)
  }

  ghost function StepForward(s: State, e: Event): State
    requires e.AdmitForward?
  {
    var scope := e.scope;
    var found := FindAnchor(s, scope);
    if e.newId in s.issued || found.Err? then s
    else if e.assertedFirst.Some? && (found.value.None? || found.value.value.first != e.assertedFirst.value) then s
    else if !(scope.environment in s.heads && s.heads[scope.environment] == e.snapshotBase) || !Free(s, scope.environment) then s
    else if found.value.None? && !SucceededBase(s, e.snapshotBase, scope.environment) then s
    else
      var anchor := if found.value.Some? then found.value.value else Anchor(e.newId, e.snapshotBase);
      Created(s, scope.environment, Deploy, e.newId).(
        receipts := s.receipts[e.newId := Forward(scope, Some(e.snapshotBase))],
        anchors := if scope in s.anchors then s.anchors else s.anchors[scope := anchor])
  }

  /** The checks on the forward and, for a retry, on the failed rollback it names. */
  predicate RollbackAllowed(s: State, e: Event, a: Anchor)
    requires e.AdmitRollback?
  {
    var scope := e.scope;
    && (e.assertedFirst.Some? ==> e.assertedFirst.value == a.first)
    && e.target in s.receipts && s.receipts[e.target].Forward? && s.receipts[e.target].scope == scope && s.receipts[e.target].captured.Some?
    && Retained(s, e.target, scope.environment) && s.deployments[e.target].mode == Deploy && s.deployments[e.target].status != Executing
    && (e.retryOf.Some? ==>
          var previous := e.retryOf.value;
          && previous in s.receipts && s.receipts[previous].Rollback? && s.receipts[previous].scope == scope
          && s.receipts[previous].base == a.base && s.receipts[previous].forward == Some(e.target)
          && Retained(s, previous, scope.environment) && s.deployments[previous].mode == RollbackTo(a.base) && s.deployments[previous].status == Failed)
    && SucceededBase(s, a.base, scope.environment)
    && HeadAllows(s, scope.environment, if e.retryOf.Some? then e.retryOf.value else e.target, e.retryOf.Some?, a.base)
  }

  ghost function StepRollback(s: State, e: Event): State
    requires e.AdmitRollback?
  {
    var found := FindAnchor(s, e.scope);
    if e.newId in s.issued || found.Err? || found.value.None? then s
    else
      var a := found.value.value;
      if !RollbackAllowed(s, e, a) then s
      else
        Created(s, e.scope.environment, RollbackTo(a.base), e.newId).(
          receipts := s.receipts[e.newId := Rollback(e.scope, a.base, Some(e.target), e.retryOf)],
          anchors := s.anchors[e.scope := a])
  }

  ghost function Step(s: State, e: Event): State {
    match e
    case AdmitForward(_, _, _, _) => StepForward(s, e)
    case AdmitRollback(_, _, _, _, _) => StepRollback(s, e)
    case Ordinary(environment, mode, newId) =>
      if newId in s.issued || !Free(s, environment) then s else Created(s, environment, mode, newId)
    case Complete(id, succeeded) =>
      if id !in s.deployments || s.deployments[id].status != Executing then s
      else s.(deployments := s.deployments[id := s.deployments[id].(status := if succeeded then Succeeded else Failed)])
    case ProveStop(id) =>
      if id !in s.deployments then s else s.(deployments := s.deployments[id := s.deployments[id].(stopProven := true)])
    case Discard(id) =>
      if id !in s.deployments || s.deployments[id].status == Executing then s else s.(deployments := s.deployments - {id})
  }

  ghost function Run(s: State, events: seq<Event>): State
    decreases |events|
  {
    if events == [] then s else Run(Step(s, events[0]), events[1..])
  }

  /** Where runs start: receipts from before anchors and recorded forwards existed, and no anchor. */
  predicate Legacy(s: State) {
    && s.anchors == map[]
    && (forall id :: id in s.receipts ==> id in s.issued && (s.receipts[id].Rollback? ==> s.receipts[id].forward.None?))
    && (forall id :: id in s.deployments ==> id in s.issued)
    && (forall e :: e in s.heads ==> s.heads[e] in s.issued)
  }

  // ---------------------------------------------------------------- invariant

  /** A rollback that records which forward it undoes. */
  ghost predicate Undoes(s: State, id: Id, forward: Id) {
    id in s.receipts && s.receipts[id].Rollback? && s.receipts[id].forward == Some(forward)
  }

  function Predecessor(r: Receipt): Id
    requires r.Rollback? && r.forward.Some?
  {
    if r.retryOf.Some? then r.retryOf.value else r.forward.value
  }

  ghost predicate RollbackOk(s: State, id: Id)
    requires id in s.receipts && s.receipts[id].Rollback? && s.receipts[id].forward.Some?
  {
    var r := s.receipts[id];
    && r.scope in s.anchors && r.base == s.anchors[r.scope].base
    && IsForwardOf(s, r.scope, r.forward.value)
    && (r.retryOf.Some? ==>
          && Undoes(s, r.retryOf.value, r.forward.value)
          && s.receipts[r.retryOf.value].scope == r.scope
          && (r.retryOf.value in s.deployments ==> s.deployments[r.retryOf.value].status == Failed))
    && Predecessor(r) in s.issued
    && r.scope.environment in s.heads && s.heads[r.scope.environment] != Predecessor(r)
  }

  function Before(path: seq<Id>, i: nat): Option<Id>
    requires i <= |path|
  {
    if i == 0 then None else Some(path[i - 1])
  }

  /** The rollbacks of one forward, oldest first: the first retries nothing, each later one retries the one before. */
  ghost predicate IsPath(s: State, forward: Id, path: seq<Id>) {
    && (forall id :: id in path <==> Undoes(s, id, forward))
    && (forall i, j :: 0 <= i < j < |path| ==> path[i] != path[j])
    && (forall i {:trigger Before(path, i)} :: 0 <= i < |path| ==> Undoes(s, path[i], forward) && s.receipts[path[i]].retryOf == Before(path, i))
  }

  ghost predicate HasPath(s: State, forward: Id) {
    exists path :: IsPath(s, forward, path)
  }

  ghost predicate AnchorOk(s: State, scope: Scope)
    requires scope in s.anchors
  {
    s.anchors[scope].first in s.receipts && s.receipts[s.anchors[scope].first] == Forward(scope, Some(s.anchors[scope].base))
  }

  ghost predicate Inv(s: State) {
    && (forall id :: id in s.receipts ==> id in s.issued)
    && (forall id :: id in s.deployments ==> id in s.issued)
    && (forall e :: e in s.heads ==> s.heads[e] in s.issued)
    && (forall scope :: scope in s.anchors ==> AnchorOk(s, scope))
    && (forall id :: id in s.receipts && s.receipts[id].Rollback? && s.receipts[id].forward.Some? ==> RollbackOk(s, id))
    && (forall forward :: HasPath(s, forward))
  }

  /** Receipts and anchors are never changed or removed. */
  ghost predicate Keeps(s: State, s': State) {
    && (forall id :: id in s.receipts ==> id in s'.receipts && s'.receipts[id] == s.receipts[id])
    && (forall scope :: scope in s.anchors ==> scope in s'.anchors && s'.anchors[scope] == s.anchors[scope])
  }

  lemma LegacyIsInvariant(s: State)
    requires Legacy(s)
    ensures Inv(s)
  {
    forall forward ensures HasPath(s, forward) {
      assert IsPath(s, forward, []);
    }
  }

  /** A path stays a path while no new rollback of that forward is recorded. */
  lemma PathsStable(s: State, s': State)
    requires forall forward :: HasPath(s, forward)
    requires forall id :: id in s.receipts ==> id in s'.receipts && s'.receipts[id] == s.receipts[id]
    requires forall id, f :: Undoes(s', id, f) ==> Undoes(s, id, f)
    ensures forall forward :: HasPath(s', forward)
  {
    forall forward ensures HasPath(s', forward) {
      assert HasPath(s, forward);
      var path :| IsPath(s, forward, path);
      forall i | 0 <= i < |path| ensures Undoes(s', path[i], forward) && s'.receipts[path[i]].retryOf == Before(path, i) {
        assert Undoes(s, path[i], forward) && s.receipts[path[i]].retryOf == Before(path, i);
      }
      assert IsPath(s', forward, path);
    }
  }

  lemma FoundAnchorVerifies(s: State, scope: Scope)
    ensures var found := FindAnchor(s, scope); found.Ok? && found.value.Some? ==>
              Verifies(s, scope, found.value.value) && (scope in s.anchors ==> found.value.value == s.anchors[scope])
  {
  }

  /** Heads move only to new identifiers, and no ended or forgotten Deployment comes back. */
  ghost predicate Advances(s: State, s': State) {
    && s.issued <= s'.issued
    && (forall id :: id in s'.deployments ==> id in s'.issued)
    && (forall e :: e in s'.heads ==> s'.heads[e] in s'.issued)
    && (forall e :: e in s.heads ==> e in s'.heads && (s'.heads[e] == s.heads[e] || s'.heads[e] !in s.issued))
    && (forall id :: id in s'.deployments && id in s.issued ==>
          id in s.deployments && (s.deployments[id].status == Failed ==> s'.deployments[id].status == Failed))
  }

  lemma RollbackStaysOk(s: State, s': State, id: Id)
    requires Advances(s, s') && Keeps(s, s')
    requires forall id :: id in s.receipts ==> id in s.issued
    requires id in s.receipts && s.receipts[id].Rollback? && s.receipts[id].forward.Some? && RollbackOk(s, id)
    ensures RollbackOk(s', id)
  {
  }

  /** Recording forwards only: a predecessor never becomes head again, and paths stay. */
  lemma ForwardsKeep(s: State, s': State)
    requires Inv(s) && Advances(s, s') && Keeps(s, s')
    requires forall id :: id in s'.receipts && id !in s.receipts ==> s'.receipts[id].Forward? && id in s'.issued
    requires forall scope :: scope in s'.anchors && scope !in s.anchors ==> AnchorOk(s', scope)
    ensures Inv(s')
  {
    forall id | id in s'.receipts && s'.receipts[id].Rollback? && s'.receipts[id].forward.Some? ensures RollbackOk(s', id) {
      assert RollbackOk(s, id);
      RollbackStaysOk(s, s', id);
    }
    forall scope | scope in s'.anchors ensures AnchorOk(s', scope) {
      if scope in s.anchors { assert AnchorOk(s, scope); }
    }
    hide IsPath, RollbackOk;
    assert forall id, f :: Undoes(s', id, f) ==> Undoes(s, id, f);
    PathsStable(s, s');
  }

  lemma ForwardStepKeeps(s: State, e: Event)
    requires Inv(s) && e.AdmitForward?
    ensures Inv(Step(s, e)) && Keeps(s, Step(s, e))
  {
    var s' := Step(s, e);
    ForwardAdvances(s, e);
    hide Step, FindAnchor, HasPath, RollbackOk, Advances, Keeps, AnchorOk;
    ForwardsKeep(s, s');
  }

  lemma ForwardAdvances(s: State, e: Event)
    requires Inv(s) && e.AdmitForward?
    ensures Keeps(s, Step(s, e)) && Advances(s, Step(s, e))
    ensures forall id :: id in Step(s, e).receipts && id !in s.receipts ==> Step(s, e).receipts[id].Forward? && id in Step(s, e).issued
    ensures forall scope :: scope in Step(s, e).anchors && scope !in s.anchors ==> AnchorOk(Step(s, e), scope)
  {
    FoundAnchorVerifies(s, e.scope);
    hide FindAnchor, HasPath, RollbackOk;
  }

  /** Steps of other Deployments leave the receipts alone. */
  lemma OtherStepKeeps(s: State, e: Event)
    requires Inv(s) && !e.AdmitRollback? && !e.AdmitForward?
    ensures Inv(Step(s, e)) && Keeps(s, Step(s, e))
  {
    OtherAdvances(s, e);
    hide Step, Advances, Inv, Keeps, AnchorOk;
    ForwardsKeep(s, Step(s, e));
  }

  lemma OtherAdvances(s: State, e: Event)
    requires Inv(s) && !e.AdmitRollback? && !e.AdmitForward?
    ensures Step(s, e).receipts == s.receipts && Step(s, e).anchors == s.anchors && Advances(s, Step(s, e)) && Keeps(s, Step(s, e))
  {
    hide HasPath, RollbackOk, AnchorOk;
  }

  /** The head has moved past the predecessor of every rollback on the path. */
  lemma PredecessorIsPassed(s: State, forward: Id, path: seq<Id>, i: nat, environment: Environment)
    requires Inv(s) && IsPath(s, forward, path) && i < |path| && IsForwardIn(s, forward, environment)
    ensures environment in s.heads && Some(s.heads[environment]) != (if i == 0 then Some(forward) else Before(path, i))
  {
    assert Before(path, i) == Before(path, i);
    assert RollbackOk(s, path[i]);
  }

  /** Only the path's last element can still be the head, so an allowed rollback retries exactly that one, or starts the path. */
  lemma PredecessorIsLast(s: State, e: Event, a: Anchor, path: seq<Id>)
    requires Inv(s) && e.AdmitRollback? && IsPath(s, e.target, path) && RollbackAllowed(s, e, a)
    ensures e.retryOf == Before(path, |path|)
  {
    var environment := e.scope.environment;
    if e.retryOf.None? {
      if path != [] { PredecessorIsPassed(s, e.target, path, 0, environment); }
    } else {
      assert Undoes(s, e.retryOf.value, e.target);
      var i :| 0 <= i < |path| && path[i] == e.retryOf.value;
      if i + 1 < |path| { PredecessorIsPassed(s, e.target, path, i + 1, environment); }
    }
  }

  /** The new rollback extends the path of its forward. */
  lemma PathGrows(s: State, s': State, path: seq<Id>, newId: Id, r: Receipt)
    requires r.Rollback? && r.forward.Some? && newId !in s.receipts && IsPath(s, r.forward.value, path)
    requires r.retryOf == Before(path, |path|) && s'.receipts == s.receipts[newId := r]
    ensures IsPath(s', r.forward.value, path + [newId])
  {
    var path' := path + [newId];
    var forward := r.forward.value;
    assert newId !in path by { assert newId in path <==> Undoes(s, newId, forward); }
    forall id ensures id in path' <==> Undoes(s', id, forward) {
      assert id in path <==> Undoes(s, id, forward);
    }
    forall i | 0 <= i < |path'| ensures Undoes(s', path'[i], forward) && s'.receipts[path'[i]].retryOf == Before(path', i) {
      if i < |path| {
        assert path'[i] == path[i] && Undoes(s, path[i], forward) && s.receipts[path[i]].retryOf == Before(path, i);
        assert Before(path', i) == Before(path, i);
      }
    }
    hide Undoes, Before;
  }

  /** The rollbacks of every other forward are untouched. */
  lemma PathStays(s: State, s': State, newId: Id, r: Receipt, forward: Id)
    requires r.Rollback? && newId !in s.receipts && HasPath(s, forward) && r.forward != Some(forward)
    requires s'.receipts == s.receipts[newId := r]
    ensures HasPath(s', forward)
  {
    var path :| IsPath(s, forward, path);
    forall id ensures Undoes(s', id, forward) <==> Undoes(s, id, forward) { }
    assert IsPath(s', forward, path);
  }

  lemma RollbackAdvances(s: State, e: Event, a: Anchor)
    requires Inv(s) && e.AdmitRollback? && e.newId !in s.issued && FindAnchor(s, e.scope) == Ok(Some(a)) && RollbackAllowed(s, e, a)
    ensures Keeps(s, Step(s, e)) && Advances(s, Step(s, e))
    ensures Verifies(s, e.scope, a) && Step(s, e).anchors == s.anchors[e.scope := a]
    ensures Step(s, e).receipts == s.receipts[e.newId := Rollback(e.scope, a.base, Some(e.target), e.retryOf)]
    ensures e.scope.environment in Step(s, e).heads && Step(s, e).heads[e.scope.environment] == e.newId
  {
    FoundAnchorVerifies(s, e.scope);
    hide FindAnchor, HasPath, RollbackOk, RollbackAllowed, AnchorOk, Verifies;
  }

  lemma NewRollbackOk(s: State, s': State, e: Event, a: Anchor)
    requires e.AdmitRollback? && e.newId !in s.issued && Keeps(s, s') && Advances(s, s') && RollbackAllowed(s, e, a)
    requires forall id :: id in s.receipts ==> id in s.issued
    requires forall id :: id in s.deployments ==> id in s.issued
    requires e.scope in s'.anchors && s'.anchors[e.scope] == a
    requires s'.receipts == s.receipts[e.newId := Rollback(e.scope, a.base, Some(e.target), e.retryOf)]
    requires e.scope.environment in s'.heads && s'.heads[e.scope.environment] == e.newId
    ensures RollbackOk(s', e.newId)
  {
  }

  lemma RollbackStepKeeps(s: State, e: Event)
    requires Inv(s) && e.AdmitRollback?
    ensures Inv(Step(s, e)) && Keeps(s, Step(s, e))
  {
    var s' := Step(s, e);
    var found := FindAnchor(s, e.scope);
    FoundAnchorVerifies(s, e.scope);
    if e.newId !in s.issued && found.Ok? && found.value.Some? && RollbackAllowed(s, e, found.value.value) {
      var a := found.value.value;
      RollbackAdvances(s, e, a);
      forall id | id in s'.receipts && s'.receipts[id].Rollback? && s'.receipts[id].forward.Some? ensures RollbackOk(s', id) {
        if id == e.newId { NewRollbackOk(s, s', e, a); } else { RollbackStaysOk(s, s', id); }
      }
      forall forward ensures HasPath(s', forward) {
        assert HasPath(s, forward);
        if forward == e.target {
          var path :| IsPath(s, forward, path);
          PredecessorIsLast(s, e, a, path);
          PathGrows(s, s', path, e.newId, s'.receipts[e.newId]);
        } else {
          PathStays(s, s', e.newId, s'.receipts[e.newId], forward);
        }
      }
      hide FindAnchor, HasPath, RollbackOk, IsPath, RollbackAllowed;
      forall scope | scope in s'.anchors ensures AnchorOk(s', scope) {
        if scope in s.anchors { assert AnchorOk(s, scope); }
      }
    }
  }

  lemma {:induction false} RunKeeps(s: State, events: seq<Event>)
    requires Inv(s)
    ensures Inv(Run(s, events)) && Keeps(s, Run(s, events))
    decreases |events|
  {
    if events != [] {
      if events[0].AdmitRollback? { RollbackStepKeeps(s, events[0]); }
      else if events[0].AdmitForward? { ForwardStepKeeps(s, events[0]); }
      else { OtherStepKeeps(s, events[0]); }
      RunKeeps(Step(s, events[0]), events[1..]);
    }
  }

  // ---------------------------------------------------------------- theorems

  /** In every run an operation and Environment have at most one anchor, it never changes, and its base is the one its first forward captured. */
  lemma AnchorIsImmutable(s: State, before: seq<Event>, more: seq<Event>, scope: Scope)
    requires Legacy(s) && scope in Run(s, before).anchors
    ensures var s1, s2 := Run(s, before), Run(Run(s, before), more);
            && scope in s2.anchors && s2.anchors[scope] == s1.anchors[scope]
            && var a := s2.anchors[scope]; a.first in s2.receipts && s2.receipts[a.first] == Forward(scope, Some(a.base))
  {
    LegacyIsInvariant(s);
    RunKeeps(s, before);
    RunKeeps(Run(s, before), more);
    assert AnchorOk(Run(Run(s, before), more), scope);
  }

  /** Every rollback of an operation goes to the base its first forward captured, whichever forward it undoes. */
  lemma RollbacksGoToFirstBase(s: State, events: seq<Event>, id: Id)
    requires Legacy(s)
    requires var r := Run(s, events).receipts; id in r && r[id].Rollback? && r[id].forward.Some?
    ensures var s' := Run(s, events); var r := s'.receipts[id];
            && r.scope in s'.anchors && s'.anchors[r.scope].first in s'.receipts
            && s'.receipts[s'.anchors[r.scope].first] == Forward(r.scope, Some(r.base))
            && IsForwardOf(s', r.scope, r.forward.value)
  {
    LegacyIsInvariant(s);
    RunKeeps(s, events);
    var s' := Run(s, events);
    assert RollbackOk(s', id) && AnchorOk(s', s'.receipts[id].scope);
  }

  /** Rollback i of the path shares the forward's scope and the anchor's base, and unless it is the last it failed. */
  ghost predicate SharesLineage(s: State, forward: Id, path: seq<Id>, i: nat) {
    && i < |path| && Undoes(s, path[i], forward)
    && var r := s.receipts[path[i]];
    && forward in s.receipts && s.receipts[forward].scope == r.scope
    && r.scope in s.anchors && s.anchors[r.scope].base == r.base
    && (i + 1 < |path| && path[i] in s.deployments ==> s.deployments[path[i]].status == Failed)
  }

  /**
   The rollbacks of one forward form one finite path without branches or cycles: the oldest retries nothing, every
   other one retries the one before it, which failed, and all share the forward and the base of the anchor.
   */
  lemma RetriesFormOnePath(s: State, events: seq<Event>, forward: Id)
    requires Legacy(s)
    ensures var s' := Run(s, events);
            exists path :: IsPath(s', forward, path) && (forall i :: 0 <= i < |path| ==> SharesLineage(s', forward, path, i))
  {
    LegacyIsInvariant(s);
    RunKeeps(s, events);
    var s' := Run(s, events);
    assert HasPath(s', forward);
    var path :| IsPath(s', forward, path);
    forall i | 0 <= i < |path| ensures SharesLineage(s', forward, path, i) {
      assert Before(path, i) == Before(path, i);
      assert RollbackOk(s', path[i]);
      if i + 1 < |path| {
        assert Before(path, i + 1) == Some(path[i]);
        assert RollbackOk(s', path[i + 1]);
      }
    }
  }

  // ---------------------------------------------------------------- the recovery path is open

  /**
   An operation's first forward on a succeeded head fixes the anchor; after it failed and its stop is proven, its rollback is
   accepted, goes to that head, and is the Environment's new head.
   */
  lemma FailedForwardCanBeRolledBack(s: State, scope: Scope, base: Id, forward: Id, rollback: Id)
    requires FindAnchor(s, scope) == Ok(None) && scope !in s.anchors
    requires scope.environment in s.heads && s.heads[scope.environment] == base && SucceededBase(s, base, scope.environment)
    requires forward !in s.issued && rollback !in s.issued && forward != rollback && base != forward && base != rollback
    ensures var s' := Run(s, [AdmitForward(scope, None, base, forward), Complete(forward, false), ProveStop(forward),
                              AdmitRollback(scope, Some(forward), forward, None, rollback)]);
            && scope in s'.anchors && s'.anchors[scope] == Anchor(forward, base)
            && rollback in s'.receipts && s'.receipts[rollback] == Rollback(scope, base, Some(forward), None)
            && rollback in s'.deployments && s'.deployments[rollback] == Deployment(scope.environment, RollbackTo(base), Executing, false)
            && scope.environment in s'.heads && s'.heads[scope.environment] == rollback
  {
    hide FindAnchor;
    var s1 := Step(s, AdmitForward(scope, None, base, forward));
    assert s1.anchors[scope] == Anchor(forward, base) && s1.deployments[forward] == Deployment(scope.environment, Deploy, Executing, false);
    var s2 := Step(s1, Complete(forward, false));
    var s3 := Step(s2, ProveStop(forward));
    assert s3.deployments[forward] == Deployment(scope.environment, Deploy, Failed, true) && s3.receipts == s1.receipts && s3.anchors == s1.anchors;
    StoredAnchorIsFound(s3, scope);
    var e := AdmitRollback(scope, Some(forward), forward, None, rollback);
    assert RollbackAllowed(s3, e, Anchor(forward, base));
    var s4 := Step(s3, e);
    assert s4.receipts[rollback] == Rollback(scope, base, Some(forward), None);
    hide Step;
    RunFour(s, AdmitForward(scope, None, base, forward), Complete(forward, false), ProveStop(forward), e);
  }

  lemma StoredAnchorIsFound(s: State, scope: Scope)
    requires scope in s.anchors && Verifies(s, scope, s.anchors[scope])
    ensures FindAnchor(s, scope) == Ok(Some(s.anchors[scope]))
  {
  }

  lemma RunFour(s: State, a: Event, b: Event, c: Event, d: Event)
    ensures Run(s, [a, b, c, d]) == Step(Step(Step(Step(s, a), b), c), d)
  {
    hide Step;
    assert [a, b, c, d][1..] == [b, c, d] && [b, c, d][1..] == [c, d] && [c, d][1..] == [d] && [d][1..] == [];
    var s1, s2 := Step(s, a), Step(Step(s, a), b);
    var s3 := Step(s2, c);
    assert Run(s3, [d]) == Run(Step(s3, d), []);
    assert Run(s2, [c, d]) == Run(s3, [d]);
    assert Run(s1, [b, c, d]) == Run(s2, [c, d]);
  }
}
