/**
 Core admission of ordinary Deployments.

 An attempt makes a receipt durable as Pending, asks Core to authorize it while its
 transaction holds the admission lock, and binds the receipt in the transaction that creates the
 Deployment.  Any other ending seals the receipt Absent, first locally and then at Core.  Attempts,
 reconciler passes and settlements interleave freely, any of them may crash, any reply may be lost.
 */
module AdmissionReceipts {
  import opened Basics

  type AdmissionId = nat
  type DeploymentId = nat

  datatype Mode = Deploy | Rollback | Destroy

  /** What receiptIntentIdentity compares beside the organization and the admission, which name the row. */
  datatype Intent = Intent(
    project: nat, environment: nat, actor: nat, requestDigest: string, mode: Mode, moduleVersions: map<nat, nat>,
    carriedForward: map<nat, nat>, confirmedRestricted: seq<nat>, draftTests: map<nat, nat>)

  datatype Disposition = Pending | Committed | Absent

  datatype Outcome = Succeeded | Failed | WasAbsent

  datatype Receipt = Receipt(
    intent: Intent,
    disposition: Disposition,
    deployment: Option<DeploymentId>,
    epoch: nat,
    outcome: Option<Outcome>,
    settled: bool)

  type Table = map<AdmissionId, Receipt>

  /** The CHECK constraints of table deployment_admission_receipts. */
  predicate RowValid(r: Receipt) {
    && match r.disposition {
      case Pending => r.deployment.None? && r.outcome.None? && r.epoch == 0 && !r.settled
      case Committed => r.deployment.Some? && r.epoch > 0 && r.outcome != Some(WasAbsent)
      case Absent => r.deployment.None? && r.outcome == Some(WasAbsent)
    }
    && (r.settled ==> r.epoch > 0)
  }

  /** What one durable change may do to a receipt: leave Pending once, and otherwise only record a settlement. */
  predicate Advances(before: Receipt, after: Receipt) {
    && after.intent == before.intent
    && (before.disposition != Pending ==>
          after.disposition == before.disposition && after.deployment == before.deployment)
    && (before.outcome.Some? ==> after.outcome == before.outcome)
    && (before.epoch > 0 ==> after.epoch == before.epoch)
    && (before.settled ==> after.settled)
  }

  function Prepared(t: Table, id: AdmissionId, intent: Intent): (Table, Result<Receipt>) {
    if id in t then
      if t[id].intent == intent then (t, Ok(t[id])) else (t, Err(Conflict))
    else
      var r := Receipt(intent, Pending, None, 0, None, false);
      (t[id := r], Ok(r))
  }

  function Bound(t: Table, id: AdmissionId, intent: Intent, d: DeploymentId, epoch: nat): (Table, Result<Receipt>) {
    if epoch == 0 then (t, Err(BadRequest))
    else if id !in t then (t, Err(NotFound))
    else if t[id].intent != intent then (t, Err(Conflict))
    else if t[id].disposition == Committed && t[id].deployment == Some(d) && t[id].epoch == epoch then (t, Ok(t[id]))
    else if t[id].disposition != Pending then (t, Err(Conflict))
    else
      var r := t[id].(disposition := Committed, deployment := Some(d), epoch := epoch);
      (t[id := r], Ok(r))
  }

  function Sealed(t: Table, id: AdmissionId, intent: Intent, epoch: nat): (Table, Result<Receipt>) {
    if id !in t then (t, Err(NotFound))
    else if t[id].intent != intent then (t, Err(Conflict))
    else if t[id].disposition == Committed then (t, Err(Conflict))
    else if t[id].disposition == Absent then (t, Ok(t[id]))
    else
      var r := t[id].(disposition := Absent, outcome := Some(WasAbsent), epoch := epoch);
      (t[id := r], Ok(r))
  }

  /** The guard of the settlement UPDATE. */
  predicate Settleable(r: Receipt, outcome: Outcome, epoch: nat) {
    && (r.outcome.None? || r.outcome == Some(outcome))
    && (r.epoch == 0 || r.epoch == epoch)
    && (if outcome == WasAbsent then r.disposition == Absent else r.disposition == Committed)
  }

  function Settled(t: Table, id: AdmissionId, outcome: Outcome, epoch: nat): (Table, Result<Receipt>) {
    if epoch == 0 then (t, Err(BadRequest))
    else if id !in t || !Settleable(t[id], outcome, epoch) then (t, Err(Conflict))
    else
      var r := t[id].(outcome := Some(outcome), epoch := epoch, settled := true);
      (t[id := r], Ok(r))
  }

  predicate TableValid(t: Table) {
    forall id :: id in t ==> RowValid(t[id])
  }

  predicate TableAdvances(t: Table, t': Table) {
    forall id :: id in t ==> id in t' && Advances(t[id], t'[id])
  }

  /** A one-row change keeps the CHECK constraints and takes no receipt back if the new row does. */
  lemma RowChangeKeepsTable(t: Table, id: AdmissionId, r: Receipt)
    requires TableValid(t) && RowValid(r)
    requires id in t ==> Advances(t[id], r)
    ensures TableValid(t[id := r]) && TableAdvances(t, t[id := r])
  {
  }

  lemma PreparedKeepsTable(t: Table, id: AdmissionId, intent: Intent)
    requires TableValid(t)
    ensures var t' := Prepared(t, id, intent).0; TableValid(t') && TableAdvances(t, t')
  {
    if id !in t { RowChangeKeepsTable(t, id, Prepared(t, id, intent).1.value); }
  }

  lemma BoundKeepsTable(t: Table, id: AdmissionId, intent: Intent, d: DeploymentId, epoch: nat)
    requires TableValid(t)
    ensures var t' := Bound(t, id, intent, d, epoch).0; TableValid(t') && TableAdvances(t, t')
  {
    var u := Bound(t, id, intent, d, epoch);
    if u.1.Ok? && t[id].disposition == Pending { RowChangeKeepsTable(t, id, u.1.value); }
  }

  lemma SealedKeepsTable(t: Table, id: AdmissionId, intent: Intent, epoch: nat)
    requires TableValid(t)
    ensures var t' := Sealed(t, id, intent, epoch).0; TableValid(t') && TableAdvances(t, t')
  {
    var u := Sealed(t, id, intent, epoch);
    if u.1.Ok? && t[id].disposition == Pending { RowChangeKeepsTable(t, id, u.1.value); }
  }

  lemma SettledKeepsTable(t: Table, id: AdmissionId, outcome: Outcome, epoch: nat)
    requires TableValid(t)
    ensures var t' := Settled(t, id, outcome, epoch).0; TableValid(t') && TableAdvances(t, t')
  {
    var u := Settled(t, id, outcome, epoch);
    if u.1.Ok? { RowChangeKeepsTable(t, id, u.1.value); }
  }

  /** The receipt table, changed in place by the helpers of internal/model/deployment_admissions.go. */
  class ReceiptStore {
    var table: Table

    constructor ()
      ensures table == map[]
    {
      table := map[];
    }

    method Prepare(id: AdmissionId, intent: Intent) returns (r: Result<Receipt>)
      modifies this
      ensures (table, r) == Prepared(old(table), id, intent)
      ensures r.Ok? ==> id in table && table[id].intent == intent
    {
      if id in table {
        var existing := table[id];
        if existing.intent != intent { return Err(Conflict); }
        return Ok(existing);
      }
      table := table[id := Receipt(intent, Pending, None, 0, None, false)];
      r := Ok(table[id]);
    }

    method Bind(id: AdmissionId, intent: Intent, d: DeploymentId, epoch: nat) returns (r: Result<Receipt>)
      modifies this
      ensures (table, r) == Bound(old(table), id, intent, d, epoch)
      ensures r.Ok? ==> id in table && table[id].disposition == Committed && table[id].deployment == Some(d)
    {
      if epoch == 0 { return Err(BadRequest); }
      if id !in table { return Err(NotFound); }
      var existing := table[id];
      if existing.intent != intent { return Err(Conflict); }
      if existing.disposition == Committed && existing.deployment == Some(d) && existing.epoch == epoch {
        return Ok(existing);
      }
      if existing.disposition != Pending { return Err(Conflict); }
      table := table[id := existing.(disposition := Committed, deployment := Some(d), epoch := epoch)];
      r := Ok(table[id]);
    }

    method SealAbsent(id: AdmissionId, intent: Intent, epoch: nat) returns (r: Result<Receipt>)
      modifies this
      ensures (table, r) == Sealed(old(table), id, intent, epoch)
      ensures r.Ok? ==> id in table && table[id].disposition == Absent
    {
      if id !in table { return Err(NotFound); }
      var existing := table[id];
      if existing.intent != intent { return Err(Conflict); }
      if existing.disposition == Committed { return Err(Conflict); }
      if existing.disposition == Absent { return Ok(existing); }
      table := table[id := existing.(disposition := Absent, outcome := Some(WasAbsent), epoch := epoch)];
      r := Ok(table[id]);
    }

    method MarkCoreSettled(id: AdmissionId, outcome: Outcome, epoch: nat) returns (r: Result<Receipt>)
      modifies this
      ensures (table, r) == Settled(old(table), id, outcome, epoch)
      ensures r.Ok? ==> id in table && table[id].settled && table[id].outcome == Some(outcome)
    {
      if epoch == 0 { return Err(BadRequest); }
      if id !in table { return Err(Conflict); }
      var row := table[id];
      if (row.outcome.Some? && row.outcome != Some(outcome)) || (row.epoch != 0 && row.epoch != epoch) ||
         (outcome == WasAbsent && row.disposition != Absent) || (outcome != WasAbsent && row.disposition != Committed) {
        return Err(Conflict);
      }
      table := table[id := row.(outcome := Some(outcome), epoch := epoch, settled := true)];
      r := Ok(table[id]);
    }
  }
}
