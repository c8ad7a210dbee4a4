/**
 Recovery of admissions: one reconciler pass over the unsettled receipts.

 A pass lists the oldest unsettled receipts and takes them one by one: a committed one is settled with its Deployment's
 ending, any other is sealed absent and settled as absent.  A conflict skips the receipt; every other error ends the pass.
 A lock that another transaction holds keeps the pass from going on, which counts as an error.  The pass is a run of the
 protocol's own steps, undisturbed by others; a crash in between is a run that stops earlier.
 */
module AdmissionReconciler {
  import opened Basics
  import opened AdmissionReceipts
  import opened AdmissionProtocol

  /** Core's answer for each admission: the epoch of a matching receipt, or 0. */
  type Replies = AdmissionId -> nat

  // ---------------------------------------------------------------- the loop

  lemma SameRow(t: Table, id: AdmissionId)
    requires id in t
    ensures t[id := t[id]] == t
  {
  }

  /** SettleDeployment and settle */
  function SettleRound(s: State, id: AdmissionId, d: DeploymentId, reply: nat): (r: (State, Option<Error>))
    requires id in s.receipts
    ensures id in r.0.receipts && r.0.receipts == s.receipts[id := r.0.receipts[id]] && r.0 == s.(receipts := r.0.receipts, told := r.0.told)
  {
    var row := s.receipts[id];
    SameRow(s.receipts, id);
    if row.settled then (s, None)
    else if d !in s.deployments then (s, Some(NotFound))
    else if s.deployments[d].status.Executing? then (s, None)
    else
      var outcome := s.deployments[d].status.outcome;
      var s1 := s.(told := s.told + {EndedAt(id, outcome)});
      if reply != row.epoch then (s1, Some(Other))
      else
        var u := Settled(s.receipts, id, outcome, reply);
        if u.1.Err? then (s1, Some(u.1.error)) else (s1.(receipts := u.0), None)
  }

  /** sealAbsent */
  function SealRound(s: State, id: AdmissionId, reply: nat): (r: (State, Option<Error>))
    requires id in s.receipts
    ensures id in r.0.receipts && r.0.receipts == s.receipts[id := r.0.receipts[id]] && r.0 == s.(receipts := r.0.receipts, told := r.0.told)
  {
    SameRow(s.receipts, id);
    if id in s.locks then (s, Some(Other))
    else
      var u := Sealed(s.receipts, id, s.receipts[id].intent, s.receipts[id].epoch);
      if u.1.Err? then (s, Some(u.1.error))
      else
        var s1 := s.(receipts := u.0, told := s.told + {AbsentAt(id)});
        if reply == 0 then (s1, Some(Other))
        else
          var w := Settled(u.0, id, WasAbsent, reply);
          if w.1.Err? then (s1, Some(w.1.error)) else (s1.(receipts := w.0), None)
  }

  function Round(s: State, id: AdmissionId, reply: nat): (r: (State, Option<Error>))
    requires id in s.receipts
    ensures id in r.0.receipts && r.0.receipts == s.receipts[id := r.0.receipts[id]] && r.0 == s.(receipts := r.0.receipts, told := r.0.told)
  {
    var row := s.receipts[id];
    if row.disposition == Committed && row.deployment.Some? then SettleRound(s, id, row.deployment.value, reply) else SealRound(s, id, reply)
  }

  predicate Ends(e: Option<Error>) {
    e.Some? && e.value != Conflict
  }

  function Pass(s: State, ids: seq<AdmissionId>, replies: Replies): (State, Option<Error>)
    requires forall id :: id in ids ==> id in s.receipts
    decreases |ids|
  {
    if ids == [] then (s, None)
    else
      var r := Round(s, ids[0], replies(ids[0]));
      if Ends(r.1) then r else Pass(r.0, ids[1..], replies)
  }

  /** ReconcileUnsettled over the listed receipts. */
  method ReconcileUnsettled(s0: State, ids: seq<AdmissionId>, replies: Replies) returns (s: State, error: Option<Error>)
    requires forall id :: id in ids ==> id in s0.receipts
    ensures (s, error) == Pass(s0, ids, replies)
  {
    hide Round;
    s := s0;
    var index := 0;
    assert ids[0..] == ids;
    while index < |ids|
      invariant 0 <= index <= |ids| && s.receipts.Keys == s0.receipts.Keys
      invariant Pass(s0, ids, replies) == Pass(s, ids[index..], replies)
    {
      var id := ids[index];
      assert ids[index..][0] == id && ids[index..][1..] == ids[index + 1..];
      assert id in ids;
      var round := Round(s, id, replies(id));
      s := round.0;
      var err := round.1;
      if err.Some? {
        if err.value == Conflict {
          index := index + 1;
          continue;
        }
        return s, err;
      }
      index := index + 1;
    }
    error := None;
  }

  // ---------------------------------------------------------------- the pass is a run of the protocol

  function RoundActions(s: State, p: ProcessId, id: AdmissionId, reply: nat): seq<Action>
    requires id in s.receipts
  {
    var row := s.receipts[id];
    if row.disposition == Committed && row.deployment.Some? then
      [ReadForSettlement(p, id, row.deployment.value), SendSettlement(p, reply), MarkSettlement(p), Crash(p)]
    else
      [ReconcileSeal(p, id), SealLocally(p), SendAbsence(p, reply), MarkAbsence(p)] + [Crash(p)]
  }

  function PassActions(s: State, p: ProcessId, ids: seq<AdmissionId>, replies: Replies): seq<Action>
    requires forall id :: id in ids ==> id in s.receipts
    decreases |ids|
  {
    if ids == [] then []
    else
      var r := Round(s, ids[0], replies(ids[0]));
      RoundActions(s, p, ids[0], replies(ids[0])) + if Ends(r.1) then [] else PassActions(r.0, p, ids[1..], replies)
  }

  lemma {:induction false} RunOn(s: State, a: seq<Action>, b: seq<Action>)
    ensures Run(s, a + b) == Run(Run(s, a), b)
    decreases |a|
  {
    hide Step;
    if a == [] { assert a + b == b; }
    else {
      assert (a + b)[1..] == a[1..] + b;
      RunOn(Step(s, a[0]), a[1..], b);
    }
  }

  /** Only an attempt whose receipt is pending holds its lock. */
  lemma LockedIsPending(s: State, id: AdmissionId)
    requires Inv(s) && id in s.locks
    ensures id in s.receipts && s.receipts[id].disposition == Pending
  {
    ProcessOf(s, s.locks[id]);
  }

  /** A process that is not there takes no step. */
  lemma NoProcess(s: State, p: ProcessId, reply: nat)
    requires p !in s.processes
    ensures Step(s, SendSettlement(p, reply)) == s && Step(s, MarkSettlement(p)) == s && Step(s, Crash(p)) == s
    ensures Step(s, SealLocally(p)) == s && Step(s, SendAbsence(p, reply)) == s && Step(s, MarkAbsence(p)) == s
  {
    hide StepAttempt, StepCore, StepRest;
  }

  function With(s: State, p: ProcessId, q: Process): State {
    s.(processes := s.processes[p := q])
  }

  lemma WithOut(s: State, p: ProcessId, q: Process)
    requires p !in s.processes && !HoldsLock(q)
    ensures Remove(With(s, p, q), p) == s && Step(With(s, p, q), Crash(p)) == s
  {
    assert s.processes[p := q] - {p} == s.processes;
    hide StepAttempt, StepCore, StepRest;
  }

  lemma ReadStep(s: State, p: ProcessId, id: AdmissionId, d: DeploymentId)
    requires p !in s.processes && id in s.receipts && s.receipts[id].deployment == Some(d)
    ensures Step(s, ReadForSettlement(p, id, d)) ==
              if s.receipts[id].settled || d !in s.deployments || s.deployments[d].status.Executing? then s
              else With(s, p, Settler(id, s.deployments[d].status.outcome, s.receipts[id].epoch))
  {
    hide StepAttempt, StepCore;
  }

  lemma SendStep(s: State, p: ProcessId, id: AdmissionId, outcome: Outcome, epoch: nat, reply: nat)
    requires p !in s.processes
    ensures var told := s.(told := s.told + {EndedAt(id, outcome)});
            Step(With(s, p, Settler(id, outcome, epoch)), SendSettlement(p, reply)) ==
              if reply != epoch then told else With(told, p, SettlementMarker(id, outcome, epoch))
  {
    hide StepAttempt, StepRest, Settled, Sealed;
    var told := s.(told := s.told + {EndedAt(id, outcome)});
    WithOut(told, p, Settler(id, outcome, epoch));
    assert s.processes[p := Settler(id, outcome, epoch)][p := SettlementMarker(id, outcome, epoch)] == s.processes[p := SettlementMarker(id, outcome, epoch)];
  }

  lemma MarkStep(s: State, p: ProcessId, id: AdmissionId, outcome: Outcome, epoch: nat)
    requires p !in s.processes && id !in s.locks
    ensures Step(With(s, p, SettlementMarker(id, outcome, epoch)), MarkSettlement(p)) == s.(receipts := Settled(s.receipts, id, outcome, epoch).0)
  {
    hide StepAttempt, StepRest, Settled, Sealed;
    WithOut(s.(receipts := Settled(s.receipts, id, outcome, epoch).0), p, SettlementMarker(id, outcome, epoch));
  }

  lemma SettleRoundIsRun(s: State, p: ProcessId, id: AdmissionId, d: DeploymentId, reply: nat)
    requires p !in s.processes && id in s.receipts && s.receipts[id].deployment == Some(d) && id !in s.locks
    ensures Run(s, [ReadForSettlement(p, id, d), SendSettlement(p, reply), MarkSettlement(p), Crash(p)]) == SettleRound(s, id, d, reply).0
  {
    hide Step, Settled, Run, With;
    FourSteps(s, ReadForSettlement(p, id, d), SendSettlement(p, reply), MarkSettlement(p), Crash(p));
    ReadStep(s, p, id, d);
    if s.receipts[id].settled || d !in s.deployments || s.deployments[d].status.Executing? {
      NoProcess(s, p, reply);
    } else {
      var outcome, epoch := s.deployments[d].status.outcome, s.receipts[id].epoch;
      var told := s.(told := s.told + {EndedAt(id, outcome)});
      SendStep(s, p, id, outcome, epoch, reply);
      NoProcess(told, p, reply);
      MarkStep(told, p, id, outcome, epoch);
      NoProcess(told.(receipts := Settled(s.receipts, id, outcome, epoch).0), p, reply);
      FailedSettlementChangesNothing(s.receipts, id, outcome, epoch);
    }
  }

  lemma FailedSettlementChangesNothing(t: Table, id: AdmissionId, outcome: Outcome, epoch: nat)
    ensures Settled(t, id, outcome, epoch).1.Err? ==> Settled(t, id, outcome, epoch).0 == t
  {
  }

  lemma SealSteps(s: State, p: ProcessId, id: AdmissionId)
    requires p !in s.processes && id in s.receipts
    ensures var q := Sealer(id, s.receipts[id].intent, s.receipts[id].epoch); var u := Sealed(s.receipts, id, q.intent, q.epoch);
            && Step(s, ReconcileSeal(p, id)) == With(s, p, q)
            && Step(With(s, p, q), SealLocally(p)) ==
                 (if id in s.locks then With(s, p, q) else if u.1.Err? then s else With(s.(receipts := u.0), p, AbsenceSender(id)))
  {
    hide StepAttempt, Settled, Sealed;
    var q := Sealer(id, s.receipts[id].intent, s.receipts[id].epoch);
    WithOut(s, p, q);
    assert s.processes[p := q][p := AbsenceSender(id)] == s.processes[p := AbsenceSender(id)];
  }

  lemma IdleSealer(s: State, p: ProcessId, id: AdmissionId, intent: Intent, epoch: nat, reply: nat)
    ensures var s1 := With(s, p, Sealer(id, intent, epoch)); Step(s1, SendAbsence(p, reply)) == s1 && Step(s1, MarkAbsence(p)) == s1
  {
    hide StepAttempt, StepRest, Settled, Sealed;
  }

  lemma AbsenceSteps(s: State, p: ProcessId, id: AdmissionId, reply: nat)
    requires p !in s.processes && id !in s.locks
    ensures var told := s.(told := s.told + {AbsentAt(id)});
            && Step(With(s, p, AbsenceSender(id)), SendAbsence(p, reply)) == (if reply == 0 then told else With(told, p, AbsenceMarker(id, reply)))
            && Step(With(told, p, AbsenceMarker(id, reply)), MarkAbsence(p)) == told.(receipts := Settled(s.receipts, id, WasAbsent, reply).0)
  {
    hide StepAttempt, StepRest, Settled, Sealed;
    var told := s.(told := s.told + {AbsentAt(id)});
    WithOut(told, p, AbsenceSender(id));
    WithOut(told.(receipts := Settled(s.receipts, id, WasAbsent, reply).0), p, AbsenceMarker(id, reply));
    assert s.processes[p := AbsenceSender(id)][p := AbsenceMarker(id, reply)] == s.processes[p := AbsenceMarker(id, reply)];
  }

  lemma SealRoundIsRun(s: State, p: ProcessId, id: AdmissionId, reply: nat)
    requires p !in s.processes && id in s.receipts
    ensures Run(s, [ReconcileSeal(p, id), SealLocally(p), SendAbsence(p, reply), MarkAbsence(p)] + [Crash(p)]) == SealRound(s, id, reply).0
  {
    hide Step, Settled, Sealed, With;
    var first := [ReconcileSeal(p, id), SealLocally(p), SendAbsence(p, reply), MarkAbsence(p)];
    RunOn(s, first, [Crash(p)]);
    OneStep(Run(s, first), Crash(p));
    FourSteps(s, ReconcileSeal(p, id), SealLocally(p), SendAbsence(p, reply), MarkAbsence(p));
    hide Run;
    var intent, epoch := s.receipts[id].intent, s.receipts[id].epoch;
    SealSteps(s, p, id);
    NoProcess(s, p, reply);
    IdleSealer(s, p, id, intent, epoch, reply);
    WithOut(s, p, Sealer(id, intent, epoch));
    var u := Sealed(s.receipts, id, intent, epoch);
    if id !in s.locks && u.1.Ok? {
      var sealed := s.(receipts := u.0);
      var told := sealed.(told := s.told + {AbsentAt(id)});
      AbsenceSteps(sealed, p, id, reply);
      NoProcess(told, p, reply);
      NoProcess(told.(receipts := Settled(u.0, id, WasAbsent, reply).0), p, reply);
      FailedSettlementChangesNothing(u.0, id, WasAbsent, reply);
    }
  }

  lemma OneStep(s: State, a: Action)
    ensures Run(s, [a]) == Step(s, a)
  {
    assert [a][1..] == [];
    assert Run(s, [a]) == Run(Step(s, a), []);
  }

  lemma RoundIsRun(s: State, p: ProcessId, id: AdmissionId, reply: nat)
    requires Inv(s) && p !in s.processes && id in s.receipts
    ensures Run(s, RoundActions(s, p, id, reply)) == Round(s, id, reply).0
  {
    hide Run, Inv, SettleRound, SealRound;
    var row := s.receipts[id];
    if row.disposition == Committed && row.deployment.Some? {
      if id in s.locks { LockedIsPending(s, id); }
      SettleRoundIsRun(s, p, id, row.deployment.value, reply);
    } else {
      SealRoundIsRun(s, p, id, reply);
    }
  }

  /** A pass is a run of the protocol's steps, so it keeps the invariant and takes nothing back. */
  lemma {:induction false} PassIsRun(s: State, p: ProcessId, ids: seq<AdmissionId>, replies: Replies)
    requires Inv(s) && p !in s.processes && forall id :: id in ids ==> id in s.receipts
    ensures Pass(s, ids, replies).0 == Run(s, PassActions(s, p, ids, replies))
    ensures Inv(Pass(s, ids, replies).0) && Monotone(s, Pass(s, ids, replies).0)
    decreases |ids|
  {
    hide Inv, Monotone, Round, RoundActions;
    if ids == [] {
      MonotoneSelf(s);
    } else {
      assert ids[0] in ids;
      var first := RoundActions(s, p, ids[0], replies(ids[0]));
      var r := Round(s, ids[0], replies(ids[0]));
      RoundIsRun(s, p, ids[0], replies(ids[0]));
      RunKeeps(s, first);
      if Ends(r.1) {
        assert first + [] == first;
      } else {
        PassIsRun(r.0, p, ids[1..], replies);
        RunOn(s, first, PassActions(r.0, p, ids[1..], replies));
        MonotoneTransitive(s, r.0, Pass(r.0, ids[1..], replies).0);
      }
    }
  }

  // ---------------------------------------------------------------- which receipts a pass settles

  /** Ends the pass at this receipt: its Deployment is gone, Core does not answer, or its lock is held. */
  predicate Blocks(s: State, id: AdmissionId, reply: nat)
    requires id in s.receipts
  {
    var r := s.receipts[id];
    if r.disposition == Committed && r.deployment.Some? then
      || r.deployment.value !in s.deployments
      || (s.deployments[r.deployment.value].status.Ended? && reply != r.epoch)
    else id in s.locks || reply == 0
  }

  /** Committed: the Deployment is there and has ended, and Core answers with the recorded epoch. Else: the lock is free and Core answers, with the recorded epoch if there is one. */
  predicate Settles(s: State, id: AdmissionId, reply: nat)
    requires id in s.receipts
  {
    var r := s.receipts[id];
    if r.disposition == Committed && r.deployment.Some? then
      && r.deployment.value in s.deployments
      && s.deployments[r.deployment.value].status.Ended? && reply == r.epoch
    else id !in s.locks && reply > 0 && (r.epoch == 0 || reply == r.epoch)
  }

  /** An ending is recorded only together with its settlement. */
  predicate OpenRow(r: Receipt) {
    r.disposition == Committed && r.outcome.Some? ==> r.settled
  }

  predicate OpenRows(t: Table) {
    forall id :: id in t ==> OpenRow(t[id])
  }

  lemma RoundIs(s: State, id: AdmissionId, reply: nat)
    requires id in s.receipts && RowValid(s.receipts[id]) && OpenRow(s.receipts[id]) && !s.receipts[id].settled
    requires forall d :: d in s.deployments && s.deployments[d].status.Ended? ==> s.deployments[d].status.outcome != WasAbsent
    ensures Ends(Round(s, id, reply).1) <==> Blocks(s, id, reply)
    ensures Round(s, id, reply).0.receipts[id].settled <==> Settles(s, id, reply)
  {
  }

  lemma {:induction false} PassElsewhere(s: State, ids: seq<AdmissionId>, replies: Replies, id: AdmissionId)
    requires (forall i :: i in ids ==> i in s.receipts) && id in s.receipts && id !in ids
    ensures var t := Pass(s, ids, replies).0.receipts; id in t && t[id] == s.receipts[id]
    decreases |ids|
  {
    hide Round;
    if ids != [] {
      assert ids[0] in ids;
      PassElsewhere(Round(s, ids[0], replies(ids[0])).0, ids[1..], replies, id);
    }
  }

  predicate Distinct(ids: seq<AdmissionId>) {
    forall j, k :: 0 <= j < k < |ids| ==> ids[j] != ids[k]
  }

  /** The receipts are there, valid and unsettled. */
  predicate Waiting(s: State, ids: seq<AdmissionId>) {
    forall id :: id in ids ==> id in s.receipts && RowValid(s.receipts[id]) && OpenRow(s.receipts[id]) && !s.receipts[id].settled
  }

  predicate Endings(s: State) {
    forall d :: d in s.deployments && s.deployments[d].status.Ended? ==> s.deployments[d].status.outcome != WasAbsent
  }

  predicate Unblocked(s: State, ids: seq<AdmissionId>, replies: Replies, k: nat)
    requires k <= |ids| && forall id :: id in ids ==> id in s.receipts
  {
    forall j :: 0 <= j < k ==> !Blocks(s, ids[j], replies(ids[j]))
  }

  lemma {:induction false} PassIs(s: State, ids: seq<AdmissionId>, replies: Replies, k: nat)
    requires Distinct(ids) && Waiting(s, ids) && Endings(s) && k < |ids|
    ensures var t := Pass(s, ids, replies).0.receipts;
            && ids[k] in t
            && (t[ids[k]].settled <==> Unblocked(s, ids, replies, k) && Settles(s, ids[k], replies(ids[k])))
            && (!Unblocked(s, ids, replies, k) ==> t[ids[k]] == s.receipts[ids[k]])
    decreases |ids|
  {
    hide Round, Blocks, Settles, RowValid, OpenRow;
    var id, rest := ids[0], ids[1..];
    assert id in ids && ids[k] in ids;
    var r := Round(s, id, replies(id));
    RoundIs(s, id, replies(id));
    RestWaits(s, r.0, ids);
    if k == 0 {
      if !Ends(r.1) { PassElsewhere(r.0, rest, replies, id); }
    } else if Ends(r.1) {
      assert Blocks(s, ids[0], replies(ids[0]));
    } else {
      assert rest[k - 1] == ids[k];
      PassIs(r.0, rest, replies, k - 1);
      forall i | i in rest ensures Blocks(r.0, i, replies(i)) == Blocks(s, i, replies(i)) { SameVerdict(s, r.0, i, replies(i)); }
      SameVerdict(s, r.0, ids[k], replies(ids[k]));
      UnblockedRest(s, r.0, ids, replies, k);
    }
  }

  lemma RestWaits(s: State, s': State, ids: seq<AdmissionId>)
    requires ids != [] && Distinct(ids) && Waiting(s, ids) && Endings(s) && ids[0] in s'.receipts
    requires s'.receipts == s.receipts[ids[0] := s'.receipts[ids[0]]] && s'.deployments == s.deployments
    ensures Distinct(ids[1..]) && Waiting(s', ids[1..]) && Endings(s') && ids[0] !in ids[1..]
    ensures forall id :: id in ids[1..] ==> id in ids && id in s'.receipts && s'.receipts[id] == s.receipts[id]
  {
    hide RowValid, OpenRow;
    var rest := ids[1..];
    forall id | id in rest ensures id in ids && id != ids[0] {
      var k :| 0 <= k < |rest| && rest[k] == id;
      assert ids[k + 1] == id;
    }
  }

  lemma SameVerdict(s: State, s': State, id: AdmissionId, reply: nat)
    requires id in s.receipts && id in s'.receipts && s'.receipts[id] == s.receipts[id] && s'.deployments == s.deployments && s'.locks == s.locks
    ensures Blocks(s', id, reply) == Blocks(s, id, reply) && Settles(s', id, reply) == Settles(s, id, reply)
  {
  }

  lemma UnblockedRest(s: State, s': State, ids: seq<AdmissionId>, replies: Replies, k: nat)
    requires 0 < k <= |ids| && (forall id :: id in ids ==> id in s.receipts) && (forall id :: id in ids ==> id in s'.receipts)
    requires !Blocks(s, ids[0], replies(ids[0]))
    requires forall i :: i in ids[1..] ==> Blocks(s', i, replies(i)) == Blocks(s, i, replies(i))
    ensures Unblocked(s', ids[1..], replies, k - 1) <==> Unblocked(s, ids, replies, k)
  {
    hide Blocks;
    var rest := ids[1..];
    assert forall j :: 0 <= j < |rest| ==> rest[j] == ids[j + 1] && rest[j] in rest;
    if Unblocked(s', rest, replies, k - 1) {
      forall j | 0 <= j < k ensures !Blocks(s, ids[j], replies(ids[j])) {
        if j > 0 { assert rest[j - 1] == ids[j] && !Blocks(s', rest[j - 1], replies(rest[j - 1])); }
      }
    }
  }

  // ---------------------------------------------------------------- reachable states

  predicate ForRest(a: Action) {
    a.Begin? || a.ReconcileSeal? || a.ReadForSettlement? || a.CompleteDeployment? || a.DeleteDeployment?
  }

  predicate ForCore(a: Action) {
    a.SealLocally? || a.SendAbsence? || a.MarkAbsence? || a.SendSettlement? || a.MarkSettlement?
  }

  predicate ForAttempt(a: Action) {
    a.MakeDurable? || a.LockReceipt? || a.AuthorizeReply? || a.CreateAndBind? || a.Commit? || a.Abort?
  }

  lemma StepIs(s: State, a: Action)
    ensures ForRest(a) || ForCore(a) || ForAttempt(a) || a.Crash?
    ensures Step(s, a) ==
              if ForRest(a) then StepRest(s, a)
              else if a.p !in s.processes then s
              else if ForCore(a) then StepCore(s, a)
              else if a.Crash? then Remove(s, a.p)
              else if s.processes[a.p].Attempt? then StepAttempt(s, a) else s
  {
    hide StepRest, StepCore, StepAttempt, Remove;
  }

  /** Which receipts an action writes. */
  lemma AttemptReceipts(s: State, a: Action)
    requires ForAttempt(a)
    requires a.p in s.processes && s.processes[a.p].Attempt?
    ensures var t := StepAttempt(s, a).receipts; var q := s.processes[a.p];
            || t == s.receipts
            || (a.MakeDurable? && t == Prepared(s.receipts, q.id, q.intent).0)
            || (a.Commit? && q.phase.Binding? && t == Bound(s.receipts, q.id, q.intent, q.phase.deployment, q.epoch).0)
  {
    RollBackIs(s, a.p);
    hide Prepared, Bound, RollBack, Remove;
  }

  /** A process that ends or rolls back leaves the rows and the other processes alone. */
  lemma RollBackIs(s: State, p: ProcessId)
    requires p in s.processes
    ensures var s' := Remove(s, p); s' == s.(processes := s.processes - {p}, locks := s'.locks)
    ensures s.processes[p].Attempt? ==>
              var s', q := RollBack(s, p), s.processes[p];
              && s' == s.(processes := s'.processes, locks := s'.locks)
              && s'.processes == if q.phase.Starting? then s.processes - {p} else s.processes[p := Sealer(q.id, q.intent, q.epoch)]
  {
  }

  lemma CoreReceipts(s: State, a: Action)
    requires ForCore(a)
    requires a.p in s.processes
    ensures var t := StepCore(s, a).receipts; var q := s.processes[a.p];
            || t == s.receipts
            || (q.Sealer? && t == Sealed(s.receipts, q.id, q.intent, q.epoch).0)
            || (q.AbsenceMarker? && t == Settled(s.receipts, q.id, WasAbsent, q.epoch).0)
            || (q.SettlementMarker? && t == Settled(s.receipts, q.id, q.outcome, q.epoch).0)
  {
    hide Sealed, Settled;
  }

  lemma RestReceipts(s: State, a: Action)
    requires ForRest(a)
    ensures StepRest(s, a).receipts == s.receipts
  {
  }

  lemma TablesKeepOpen(t: Table, id: AdmissionId, intent: Intent, d: DeploymentId, outcome: Outcome, epoch: nat)
    requires TableValid(t) && OpenRows(t)
    ensures OpenRows(Prepared(t, id, intent).0) && OpenRows(Bound(t, id, intent, d, epoch).0)
    ensures OpenRows(Sealed(t, id, intent, epoch).0) && OpenRows(Settled(t, id, outcome, epoch).0)
  {
    if id in t { assert RowValid(t[id]) && OpenRow(t[id]); }
  }

  lemma StepKeepsOpen(s: State, a: Action)
    requires Inv(s) && OpenRows(s.receipts)
    ensures OpenRows(Step(s, a).receipts)
  {
    hide Inv, TableValid, ProcessesOk, LocksOk, DistinctBindings, BindingsOk, OutcomesOk, MessagesOk, OpenRows, Step, StepAttempt, StepCore, StepRest,
      Remove, Prepared, Bound, Sealed, Settled;
    Parts(s);
    StepIs(s, a);
    if !ForRest(a) && a.p in s.processes { RollBackIs(s, a.p); }
    if ForRest(a) {
      RestReceipts(s, a);
    } else if a.p in s.processes {
      var q := s.processes[a.p];
      if ForCore(a) {
        CoreReceipts(s, a);
        if q.Sealer? { TablesKeepOpen(s.receipts, q.id, q.intent, 0, WasAbsent, q.epoch); }
        if q.AbsenceMarker? { OtherTablesKeepOpen(s.receipts, q.id, WasAbsent, q.epoch); }
        if q.SettlementMarker? { OtherTablesKeepOpen(s.receipts, q.id, q.outcome, q.epoch); }
      } else if q.Attempt? && ForAttempt(a) {
        AttemptReceipts(s, a);
        TablesKeepOpen(s.receipts, q.id, q.intent, if q.phase.Binding? then q.phase.deployment else 0, WasAbsent, q.epoch);
      }
    }
  }

  lemma OtherTablesKeepOpen(t: Table, id: AdmissionId, outcome: Outcome, epoch: nat)
    requires OpenRows(t)
    ensures OpenRows(Settled(t, id, outcome, epoch).0)
  {
  }

  lemma {:induction false} RunKeepsOpen(s: State, actions: seq<Action>)
    requires Inv(s) && OpenRows(s.receipts)
    ensures OpenRows(Run(s, actions).receipts)
    decreases |actions|
  {
    hide Inv, OpenRows, Step, Monotone;
    if actions != [] {
      StepKeeps(s, actions[0]);
      StepKeepsOpen(s, actions[0]);
      RunKeepsOpen(Step(s, actions[0]), actions[1..]);
    }
  }

  /** created_at, and then the identifier, order the receipts. */
  predicate Older(created: AdmissionId -> nat, i: AdmissionId, j: AdmissionId) {
    created(i) < created(j) || (created(i) == created(j) && i < j)
  }

  predicate Overdue(s: State, created: AdmissionId -> nat, cutoff: nat, id: AdmissionId) {
    id in s.receipts && !s.receipts[id].settled && created(id) <= cutoff
  }

  /** ListUnsettledDeploymentAdmissionReceipts: the oldest unsettled receipts before the cutoff, at most limit of them, in order. */
  predicate Lists(s: State, created: AdmissionId -> nat, cutoff: nat, limit: nat, ids: seq<AdmissionId>) {
    && |ids| <= limit
    && (forall id :: id in ids ==> Overdue(s, created, cutoff, id))
    && (forall j, k :: 0 <= j < k < |ids| ==> Older(created, ids[j], ids[k]))
    && (forall id :: id in s.receipts && Overdue(s, created, cutoff, id) && id !in ids ==> |ids| == limit && forall k :: 0 <= k < |ids| ==> Older(created, ids[k], id))
  }

  lemma ReachableWaits(s: State, created: AdmissionId -> nat, cutoff: nat, limit: nat, ids: seq<AdmissionId>)
    requires Inv(s) && OpenRows(s.receipts) && Lists(s, created, cutoff, limit, ids)
    ensures Distinct(ids) && Waiting(s, ids) && Endings(s)
  {
    Parts(s);
    hide Inv, ProcessesOk, LocksOk, DistinctBindings, BindingsOk, MessagesOk, RowValid;
    forall id | id in ids ensures id in s.receipts && RowValid(s.receipts[id]) && OpenRow(s.receipts[id]) && !s.receipts[id].settled {
      assert Overdue(s, created, cutoff, id);
    }
  }

  lemma ReachableIsOpen(actions: seq<Action>)
    ensures Inv(After(actions)) && OpenRows(After(actions).receipts)
  {
    hide Inv, Run;
    AfterIsInvariant(actions);
    AfterIsInvariant([]);
    InitialIs();
    RunKeepsOpen(Initial, actions);
  }

  lemma InitialIs()
    ensures After([]) == Initial
  {
  }

  // ---------------------------------------------------------------- theorems

  /**
   Over every run, an undisturbed pass settles a listed receipt if and only if no receipt listed before it ends the pass and its own round
   settles it: a committed one whose Deployment is there and has ended and for which Core answers with the recorded epoch, or any other whose
   lock is free and for which Core answers. A receipt behind one that ends the pass is not touched.
   */
  lemma PassSettlesIff(actions: seq<Action>, created: AdmissionId -> nat, cutoff: nat, limit: nat, ids: seq<AdmissionId>, replies: Replies, k: nat)
    requires Lists(After(actions), created, cutoff, limit, ids) && k < |ids|
    ensures forall id :: id in ids ==> id in After(actions).receipts
    ensures var s := After(actions); var t := Pass(s, ids, replies).0.receipts;
            && ids[k] in t
            && (t[ids[k]].settled <==> Unblocked(s, ids, replies, k) && Settles(s, ids[k], replies(ids[k])))
            && (!Unblocked(s, ids, replies, k) ==> t[ids[k]] == s.receipts[ids[k]])
  {
    hide Run, Inv, OpenRows, Pass, Unblocked, Settles;
    ReachableIsOpen(actions);
    ReachableWaits(After(actions), created, cutoff, limit, ids);
    PassIs(After(actions), ids, replies, k);
  }

  /** Committed and unsettled, its Deployment deleted, and no settlement of it under way. */
  predicate Stranded(s: State, id: AdmissionId) {
    && id in s.receipts && s.receipts[id].disposition == Committed && s.receipts[id].deployment.Some? && !s.receipts[id].settled
    && s.receipts[id].deployment.value !in s.deployments && Unattended(s, id)
  }

  /** No transaction rewrites a committed receipt, except to settle it as ended. */
  lemma CommittedRowStays(t: Table, i: AdmissionId, id: AdmissionId, intent: Intent, d: DeploymentId, epoch: nat, outcome: Outcome)
    requires id in t && t[id].disposition == Committed
    ensures var t' := Prepared(t, i, intent).0; id in t' && t'[id] == t[id]
    ensures var t' := Bound(t, i, intent, d, epoch).0; id in t' && t'[id] == t[id]
    ensures var t' := Sealed(t, i, intent, epoch).0; id in t' && t'[id] == t[id]
    ensures i != id || outcome == WasAbsent ==> var t' := Settled(t, i, outcome, epoch).0; id in t' && t'[id] == t[id]
  {
  }

  lemma StrandedRow(s: State, a: Action, id: AdmissionId)
    requires Stranded(s, id)
    ensures id in Step(s, a).receipts && Step(s, a).receipts[id] == s.receipts[id]
  {
    hide Step, StepAttempt, StepCore, StepRest, Remove, Prepared, Bound, Sealed, Settled;
    StepIs(s, a);
    if !ForRest(a) && a.p in s.processes { RollBackIs(s, a.p); }
    if ForRest(a) {
      RestReceipts(s, a);
    } else if a.p in s.processes {
      var q := s.processes[a.p];
      if ForCore(a) {
        CoreReceipts(s, a);
        match q
        case Sealer(i, intent, epoch) => CommittedRowStays(s.receipts, i, id, intent, 0, epoch, WasAbsent);
        case AbsenceMarker(i, epoch) => CommittedRowStays(s.receipts, i, id, s.receipts[id].intent, 0, epoch, WasAbsent);
        case SettlementMarker(i, outcome, epoch) => CommittedRowStays(s.receipts, i, id, s.receipts[id].intent, 0, epoch, outcome);
        case _ =>
      } else if q.Attempt? && ForAttempt(a) {
        AttemptReceipts(s, a);
        CommittedRowStays(s.receipts, q.id, id, q.intent, if q.phase.Binding? then q.phase.deployment else 0, q.epoch, WasAbsent);
      }
    }
  }

  predicate Unattended(s: State, id: AdmissionId) {
    forall p :: p in s.processes && s.processes[p].id == id ==> !s.processes[p].Settler? && !s.processes[p].SettlementMarker?
  }

  /** A step of p leaves the other processes alone. */
  predicate OwnProcess(s: State, s': State, p: ProcessId) {
    forall p' :: p' in s'.processes && p' != p ==> p' in s.processes && s'.processes[p'] == s.processes[p']
  }

  lemma UnattendedStays(s: State, s': State, p: ProcessId, id: AdmissionId)
    requires Unattended(s, id) && OwnProcess(s, s', p)
    requires p in s'.processes && s'.processes[p].id == id && p !in s.processes ==> !s'.processes[p].Settler? && !s'.processes[p].SettlementMarker?
    requires p in s'.processes && s'.processes[p].id == id && p in s.processes && s'.processes[p] != s.processes[p] ==>
               !s'.processes[p].Settler? && !s'.processes[p].SettlementMarker?
    ensures Unattended(s', id)
  {
  }

  lemma AttemptProcess(s: State, a: Action)
    requires ForAttempt(a) && a.p in s.processes && s.processes[a.p].Attempt?
    ensures var s' := StepAttempt(s, a); OwnProcess(s, s', a.p) && (a.p in s'.processes ==> s'.processes[a.p].Attempt? || s'.processes[a.p].Sealer?)
  {
    hide Prepared, Bound, HoldsLock, RollBack, Remove;
    RollBackProcess(s, a.p);
  }

  lemma RollBackProcess(s: State, p: ProcessId)
    requires p in s.processes && s.processes[p].Attempt?
    ensures var s' := RollBack(s, p); OwnProcess(s, s', p) && (p in s'.processes ==> s'.processes[p].Sealer?)
    ensures OwnProcess(s, Remove(s, p), p) && p !in Remove(s, p).processes
  {
    hide HoldsLock;
  }

  lemma AttemptProcesses(s: State, a: Action, id: AdmissionId)
    requires ForAttempt(a)
    requires a.p in s.processes && s.processes[a.p].Attempt? && Unattended(s, id)
    ensures Unattended(StepAttempt(s, a), id)
  {
    hide Unattended, StepAttempt;
    AttemptProcess(s, a);
    UnattendedStays(s, StepAttempt(s, a), a.p, id);
  }

  /** A step that leaves p alone, ends it or makes it q. */
  predicate Becomes(s: State, s': State, p: ProcessId, q: Process) {
    OwnProcess(s, s', p) && s'.deployments == s.deployments && (p in s'.processes ==> s'.processes[p] == q || (p in s.processes && s'.processes[p] == s.processes[p]))
  }

  lemma AbsenceProcess(s: State, a: Action)
    requires (a.SealLocally? || a.SendAbsence? || a.MarkAbsence?) && a.p in s.processes
    ensures Becomes(s, StepCore(s, a), a.p, if a.SealLocally? then AbsenceSender(s.processes[a.p].id) else AbsenceMarker(s.processes[a.p].id, if a.SendAbsence? then a.replyEpoch else 0))
  {
    hide Sealed, Settled, HoldsLock;
  }

  lemma SettlementProcess(s: State, a: Action)
    requires (a.SendSettlement? || a.MarkSettlement?) && a.p in s.processes
    ensures var q := s.processes[a.p];
            if q.Settler? then Becomes(s, StepCore(s, a), a.p, SettlementMarker(q.id, q.outcome, q.epoch)) else Becomes(s, StepCore(s, a), a.p, q)
  {
    hide Sealed, Settled, HoldsLock;
  }

  lemma CoreProcesses(s: State, a: Action, id: AdmissionId)
    requires ForCore(a)
    requires a.p in s.processes && Unattended(s, id)
    ensures Unattended(StepCore(s, a), id) && StepCore(s, a).deployments == s.deployments
  {
    assert s.processes[a.p].Settler? ==> s.processes[a.p].id != id;
    hide Unattended, StepCore;
    if a.SendSettlement? || a.MarkSettlement? { SettlementProcess(s, a); } else { AbsenceProcess(s, a); }
    UnattendedStays(s, StepCore(s, a), a.p, id);
  }

  lemma RestProcesses(s: State, a: Action, id: AdmissionId, d: DeploymentId)
    requires ForRest(a)
    requires Unattended(s, id) && id in s.receipts && s.receipts[id].deployment == Some(d) && d !in s.deployments
    ensures Unattended(StepRest(s, a), id) && d !in StepRest(s, a).deployments
  {
  }

  /** An identifier that was committed once is never committed again. */
  lemma AttemptDeployments(s: State, a: Action, d: DeploymentId)
    requires ForAttempt(a)
    requires a.p in s.processes && s.processes[a.p].Attempt? && ProcessOk(s, a.p, s.processes[a.p]) && d in s.bound && d !in s.deployments
    ensures d !in StepAttempt(s, a).deployments
  {
    RollBackIs(s, a.p);
    hide Prepared, Bound, RollBack, Remove;
  }

  lemma StrandedRest(s: State, a: Action, id: AdmissionId)
    requires Inv(s) && Stranded(s, id)
    ensures Unattended(Step(s, a), id) && s.receipts[id].deployment.value !in Step(s, a).deployments
  {
    hide Inv, Step, StepAttempt, StepCore, StepRest, Remove, Unattended, ProcessOk;
    var d := s.receipts[id].deployment.value;
    CommittedIsBound(s, id);
    StepIs(s, a);
    if ForRest(a) {
      RestProcesses(s, a, id, d);
    } else if a.p in s.processes {
      if ForCore(a) {
        CoreProcesses(s, a, id);
      } else if a.Crash? {
        CrashProcesses(s, a.p, id);
      } else if s.processes[a.p].Attempt? && ForAttempt(a) {
        ProcessOf(s, a.p);
        AttemptProcesses(s, a, id);
        AttemptDeployments(s, a, d);
      }
    }
  }

  lemma CrashProcesses(s: State, p: ProcessId, id: AdmissionId)
    requires p in s.processes && Unattended(s, id)
    ensures Unattended(Remove(s, p), id) && Remove(s, p).deployments == s.deployments
  {
  }

  lemma CommittedIsBound(s: State, id: AdmissionId)
    requires Inv(s) && id in s.receipts && s.receipts[id].deployment.Some?
    ensures s.receipts[id].deployment.value in s.bound
  {
    Parts(s);
    hide Inv, TableValid, ProcessesOk, LocksOk, DistinctBindings, OutcomesOk, MessagesOk;
    assert NamesDeployment(s, id);
  }

  lemma StrandedStep(s: State, a: Action, id: AdmissionId)
    requires Inv(s) && Stranded(s, id)
    ensures Stranded(Step(s, a), id)
  {
    StrandedRow(s, a, id);
    StrandedRest(s, a, id);
    hide Step, Inv;
  }

  /** A receipt whose Deployment was deleted before it was settled is never settled, whatever happens. */
  lemma {:induction false} StrandedForever(s: State, more: seq<Action>, id: AdmissionId)
    requires Inv(s) && Stranded(s, id)
    ensures Stranded(Run(s, more), id) && Inv(Run(s, more))
    decreases |more|
  {
    hide Inv, Stranded, Step, Monotone;
    if more != [] {
      StepKeeps(s, more[0]);
      StrandedStep(s, more[0], id);
      StrandedForever(Step(s, more[0]), more[1..], id);
    }
  }

  /** A settlement under way carries the recorded epoch. */
  predicate KnowsEpoch(s: State, q: Process) {
    q.Settler? || q.SettlementMarker? ==> q.id in s.receipts && s.receipts[q.id].epoch == q.epoch
  }

  predicate SettlersKnow(s: State) {
    forall p :: p in s.processes ==> KnowsEpoch(s, s.processes[p])
  }

  lemma EpochStays(s: State, s': State, p: ProcessId, q: Process)
    requires TableValid(s.receipts) && Monotone(s, s') && ProcessOk(s, p, q) && KnowsEpoch(s, q)
    ensures KnowsEpoch(s', q)
  {
    if q.Settler? || q.SettlementMarker? { assert RowValid(s.receipts[q.id]) && Advances(s.receipts[q.id], s'.receipts[q.id]); }
  }

  lemma RestKnows(s: State, a: Action, p: ProcessId)
    requires ForRest(a) && SettlersKnow(s) && p in StepRest(s, a).processes
    ensures KnowsEpoch(StepRest(s, a), StepRest(s, a).processes[p])
  {
    if p in s.processes { assert KnowsEpoch(s, s.processes[p]); }
  }

  lemma SendKnows(s: State, a: Action, p: ProcessId)
    requires (a.SendSettlement? || a.MarkSettlement?) && a.p in s.processes && KnowsEpoch(s, s.processes[a.p]) && p in StepCore(s, a).processes
    ensures (p in s.processes && StepCore(s, a).processes[p] == s.processes[p]) || KnowsEpoch(StepCore(s, a), StepCore(s, a).processes[p])
  {
    hide Sealed, Settled, HoldsLock;
  }

  lemma StepKnows(s: State, a: Action, p: ProcessId)
    requires Inv(s) && SettlersKnow(s) && p in Step(s, a).processes
    ensures (p in s.processes && Step(s, a).processes[p] == s.processes[p]) || KnowsEpoch(Step(s, a), Step(s, a).processes[p])
  {
    hide Inv, Step, StepAttempt, StepCore, StepRest, Remove;
    StepIs(s, a);
    if ForRest(a) {
      RestKnows(s, a, p);
    } else if a.p in s.processes {
      assert KnowsEpoch(s, s.processes[a.p]);
      RollBackIs(s, a.p);
      if a.SendSettlement? || a.MarkSettlement? { SendKnows(s, a, p); }
      else if ForCore(a) { AbsenceProcess(s, a); }
      else if ForAttempt(a) && s.processes[a.p].Attempt? { AttemptProcess(s, a); }
    }
  }

  lemma {:induction false} RunKnows(s: State, actions: seq<Action>)
    requires Inv(s) && SettlersKnow(s)
    ensures SettlersKnow(Run(s, actions))
    decreases |actions|
  {
    hide Inv, Step, Monotone, KnowsEpoch, ProcessOk;
    if actions != [] {
      var s1 := Step(s, actions[0]);
      StepKeeps(s, actions[0]);
      Parts(s);
      forall p | p in s1.processes ensures KnowsEpoch(s1, s1.processes[p]) {
        StepKnows(s, actions[0], p);
        if p in s.processes && s1.processes[p] == s.processes[p] {
          ProcessOf(s, p);
          EpochStays(s, s1, p, s.processes[p]);
        }
      }
      RunKnows(s1, actions[1..]);
    }
  }

  /** The two steps that a settlement under way still has to take. */
  lemma UnderWaySettles(s: State, p: ProcessId)
    requires Inv(s) && OpenRows(s.receipts) && SettlersKnow(s) && p in s.processes && (s.processes[p].Settler? || s.processes[p].SettlementMarker?)
    ensures var q := s.processes[p]; var s' := Step(Step(s, SendSettlement(p, q.epoch)), MarkSettlement(p));
            q.id in s'.receipts && s'.receipts[q.id].settled
  {
    var q := s.processes[p];
    Parts(s);
    ProcessOf(s, p);
    assert KnowsEpoch(s, q) && EndedWith(s, q.id, q.outcome);
    assert RowValid(s.receipts[q.id]) && OpenRow(s.receipts[q.id]);
    if q.id in s.locks { LockedIsPending(s, q.id); }
    hide Inv, OpenRows, SettlersKnow, ProcessesOk, LocksOk, DistinctBindings, BindingsOk, OutcomesOk, MessagesOk, TableValid, ProcessOk;
    MarkUnderWay(s, p);
  }

  lemma MarkUnderWay(s: State, p: ProcessId)
    requires p in s.processes && (s.processes[p].Settler? || s.processes[p].SettlementMarker?)
    requires s.processes[p].id !in s.locks && s.processes[p].epoch > 0 && s.processes[p].outcome != WasAbsent
    requires s.processes[p].id in s.receipts && s.receipts[s.processes[p].id].epoch == s.processes[p].epoch
    requires var r := s.receipts[s.processes[p].id]; r.disposition == Committed && (r.settled || r.outcome.None?)
    ensures var q := s.processes[p]; var s' := Step(Step(s, SendSettlement(p, q.epoch)), MarkSettlement(p));
            q.id in s'.receipts && s'.receipts[q.id].settled
  {
    hide StepAttempt, StepRest, Sealed, HoldsLock;
    var q := s.processes[p];
    var s1 := Step(s, SendSettlement(p, q.epoch));
    assert p in s1.processes && s1.processes[p] == SettlementMarker(q.id, q.outcome, q.epoch) && s1.receipts == s.receipts && s1.locks == s.locks;
  }

  lemma InitialKnows()
    ensures SettlersKnow(Initial)
  {
  }

  /**
   Over all runs, a committed, unsettled receipt whose Deployment is gone can still be settled if and only if a settlement that read the
   Deployment before is under way.
   */
  lemma DeletedDeploymentSettlesIff(actions: seq<Action>, id: AdmissionId)
    requires var s := After(actions);
             id in s.receipts && s.receipts[id].disposition == Committed && s.receipts[id].deployment.Some? && !s.receipts[id].settled
             && s.receipts[id].deployment.value !in s.deployments
    ensures (exists more :: SettledAfter(After(actions), more, id)) <==> !Unattended(After(actions), id)
  {
    hide Run, Inv, OpenRows, SettlersKnow;
    var s := After(actions);
    ReachableIsOpen(actions);
    AfterIsInvariant([]);
    InitialIs();
    InitialKnows();
    RunKnows(Initial, actions);
    if Unattended(s, id) {
      forall more ensures !SettledAfter(s, more, id) { StrandedForever(s, more, id); }
    } else {
      var p :| p in s.processes && s.processes[p].id == id && (s.processes[p].Settler? || s.processes[p].SettlementMarker?);
      UnderWaySettles(s, p);
      var send, mark := SendSettlement(p, s.processes[p].epoch), MarkSettlement(p);
      RunTwo(s, send, mark);
      assert SettledAfter(s, [send, mark], id);
    }
  }

  ghost predicate SettledAfter(s: State, more: seq<Action>, id: AdmissionId) {
    id in Run(s, more).receipts && Run(s, more).receipts[id].settled
  }

  lemma RunTwo(s: State, a: Action, b: Action)
    ensures Run(s, [a, b]) == Step(Step(s, a), b)
  {
    hide Step;
    assert [a, b] + [] == [a, b];
    TwoStepsFirst(s, a, b, []);
  }

  /**
   Such a receipt blocks every later pass: whatever happened since, and whatever Core answers, no pass touches a receipt that is listed
   and younger, and the older one is always listed before it.
   */
  lemma StrandedReceiptBlocksYounger(
    before: seq<Action>, more: seq<Action>, created: AdmissionId -> nat, cutoff: nat, limit: nat, ids: seq<AdmissionId>, replies: Replies,
    stranded: AdmissionId, id: AdmissionId)
    requires Stranded(After(before), stranded)
    requires Lists(After(before + more), created, cutoff, limit, ids) && id in ids && Older(created, stranded, id)
    ensures Stranded(After(before + more), stranded)
    ensures forall i :: i in ids ==> i in After(before + more).receipts
    ensures var s := After(before + more); var t := Pass(s, ids, replies).0.receipts; id in t && t[id] == s.receipts[id] && !t[id].settled
  {
    var s := After(before + more);
    RunOn(Initial, before, more);
    AfterIsInvariant(before);
    hide Run, Inv;
    StrandedForever(After(before), more, stranded);
    StrandedIsListed(s, created, cutoff, limit, ids, stranded, id);
    var j :| 0 <= j < |ids| && ids[j] == stranded;
    var k :| 0 <= k < |ids| && ids[k] == id;
    assert k < j ==> Older(created, ids[k], ids[j]);
    assert j < k;
    assert forall i :: i in ids ==> Overdue(s, created, cutoff, i);
    assert Blocks(s, ids[j], replies(ids[j]));
    PassSettlesIff(before + more, created, cutoff, limit, ids, replies, k);
  }

  lemma StrandedIsListed(s: State, created: AdmissionId -> nat, cutoff: nat, limit: nat, ids: seq<AdmissionId>, stranded: AdmissionId, id: AdmissionId)
    requires Stranded(s, stranded) && Lists(s, created, cutoff, limit, ids) && id in ids && Older(created, stranded, id)
    ensures stranded in ids
  {
    assert Overdue(s, created, cutoff, id) && Overdue(s, created, cutoff, stranded);
    var k :| 0 <= k < |ids| && ids[k] == id;
    assert stranded !in ids ==> Older(created, ids[k], stranded);
  }

  /** The run: an admission commits its Deployment, which ends and is deleted with its Environment before anybody settles it. */
  function StrandingRun(p: ProcessId, id: AdmissionId, intent: Intent, epoch: nat, d: DeploymentId): seq<Action> {
    [Begin(p, id, intent), MakeDurable(p)] + [LockReceipt(p), AuthorizeReply(p, epoch), CreateAndBind(p, d), Commit(p, false)]
    + [CompleteDeployment(d, Succeeded), DeleteDeployment(d)]
  }

  /** And a second attempt that crashes once its receipt is durable. */
  function AbandonedRun(p: ProcessId, id: AdmissionId, intent: Intent): seq<Action> {
    [Begin(p, id, intent), MakeDurable(p), Crash(p)]
  }

  lemma Strands(p: ProcessId, id: AdmissionId, intent: Intent, epoch: nat, d: DeploymentId)
    requires epoch > 0
    ensures var s := After(StrandingRun(p, id, intent, epoch, d)); Stranded(s, id) && s.processes == map[] && s.locks == map[] && s.receipts.Keys == {id}
  {
    var first := [Begin(p, id, intent), MakeDurable(p)] + [LockReceipt(p), AuthorizeReply(p, epoch), CreateAndBind(p, d), Commit(p, false)];
    var complete, delete := CompleteDeployment(d, Succeeded), DeleteDeployment(d);
    CommitsAlone(p, id, intent, epoch, d);
    var s1 := Run(Initial, first);
    var s2 := Step(s1, complete);
    var s3 := Step(s2, delete);
    assert d !in s3.deployments && s3.receipts == s1.receipts && s3.processes == s1.processes && s3.locks == s1.locks;
    hide Step;
    RunOn(Initial, first, [complete, delete]);
    TwoStepsFirst(s1, complete, delete, []);
    assert [complete, delete] + [] == [complete, delete];
  }

  /** The first half, from nothing: afterwards there is this receipt and no process. */
  lemma CommitsAlone(p: ProcessId, id: AdmissionId, intent: Intent, epoch: nat, d: DeploymentId)
    requires epoch > 0
    ensures var s := Run(Initial, [Begin(p, id, intent), MakeDurable(p)] + [LockReceipt(p), AuthorizeReply(p, epoch), CreateAndBind(p, d), Commit(p, false)]);
            && s.receipts == map[id := Receipt(intent, Committed, Some(d), epoch, None, false)]
            && d in s.deployments && s.deployments[d].status.Executing? && s.processes == map[] && s.locks == map[]
  {
    AuthorizedAttemptCommits(Initial, p, id, intent, epoch, d);
    hide Run;
  }

  /**
   So there is a run after which a pending receipt that no process holds is settled by no pass, whatever Core answers and whatever else
   happens: an older receipt's Deployment was deleted before it was settled.
   */
  lemma AbandonedReceiptStaysPending(
    p: ProcessId, intent: Intent, epoch: nat, d: DeploymentId, created: AdmissionId -> nat, cutoff: nat, limit: nat, ids: seq<AdmissionId>, replies: Replies)
    requires epoch > 0 && Older(created, 1, 2)
    ensures var s := After(StrandingRun(p, 1, intent, epoch, d) + AbandonedRun(p, 2, intent));
            && Stranded(s, 1) && 2 in s.receipts && s.receipts[2].disposition == Pending && 2 !in s.locks && s.processes == map[]
            && (Lists(s, created, cutoff, limit, ids) && 2 in ids ==>
                  && (forall i :: i in ids ==> i in s.receipts)
                  && var t := Pass(s, ids, replies).0.receipts; 2 in t && t[2].disposition == Pending && !t[2].settled)
  {
    var first, second := StrandingRun(p, 1, intent, epoch, d), AbandonedRun(p, 2, intent);
    Strands(p, 1, intent, epoch, d);
    Abandons(After(first), p, 2, intent);
    RunOn(Initial, first, second);
    AfterIsInvariant(first);
    hide Run, Inv, Lists, Pass, StrandingRun, AbandonedRun;
    StrandedForever(After(first), second, 1);
    if Lists(After(first + second), created, cutoff, limit, ids) && 2 in ids {
      StrandedReceiptBlocksYounger(first, second, created, cutoff, limit, ids, replies, 1, 2);
    }
  }

  lemma Abandons(s: State, p: ProcessId, id: AdmissionId, intent: Intent)
    requires s.processes == map[] && s.locks == map[] && id !in s.receipts
    ensures var s' := Run(s, AbandonedRun(p, id, intent));
            s' == s.(receipts := s.receipts[id := Receipt(intent, Pending, None, 0, None, false)])
  {
    TwoStepsFirst(s, Begin(p, id, intent), MakeDurable(p), [Crash(p)]);
    assert [Begin(p, id, intent), MakeDurable(p)] + [Crash(p)] == AbandonedRun(p, id, intent);
    var s2 := Step(Step(s, Begin(p, id, intent)), MakeDurable(p));
    OneStep(s2, Crash(p));
    hide Run, StepCore;
    assert Step(s, Begin(p, id, intent)) == s.(processes := map[p := Attempt(id, intent, 0, Starting)]);
    assert s2 == s.(receipts := s.receipts[id := Receipt(intent, Pending, None, 0, None, false)], processes := map[p := Attempt(id, intent, 0, Durable)]);
  }
}
