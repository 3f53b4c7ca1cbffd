/**
 * `InMemoryLearningProposalRepository`
 * (packages/db/src/adaptive-control-plane-repository.ts): proposals by id and
 * an index by tenant and proposal key. The methods are proved to find by index
 * what a scan would find and to do to that one proposal what the transitions
 * of `LearningProposals` say.
 */
module LearningProposalsRepository {
  import opened Text
  import opened LearningProposals
  import opened KeyIndex
  import Gate = PromotionGate
  import Outbox

  type Proposals = map<nat, Proposal>

  const MIN_LEASE_MS := 1_000
  const MAX_LEASE_MS := 15 * 60_000

  /** A thrown validation error, a null, or the new record. */
  datatype Reply = Invalid | Refused | Done(proposal: Proposal)

  function Keys(records: Proposals): map<nat, string> {
    map id | id in records :: Key(records[id].tenantId, records[id].proposalKey)
  }

  predicate GoodRecord(p: Proposal, id: nat, nextToken: nat) {
    && p.id == id && Outbox.IsUuid(p.tenantId) && Shaped(p)
    && (p.promotionClaim.Some? ==> p.promotionClaim.value.token < nextToken)
  }

  ghost predicate Stored(records: Proposals, n: nat, nextToken: nat) {
    forall id {:trigger id in records} | id in records :: id <= n && GoodRecord(records[id], id, nextToken)
  }

  /** Records, index, last id drawn and next claim token. */
  datatype Books = Books(records: Proposals, index: Index, n: nat, nextToken: nat)

  ghost predicate Coherent(b: Books) {
    match b
    case Books(records, index, n, nextToken) => Stored(records, n, nextToken) && Inverse(index, Keys(records))
  }

  predicate IsFor(p: Proposal, tenantId: string, key: string) {
    p.tenantId == tenantId && p.proposalKey == key
  }

  ghost predicate NoneFor(records: Proposals, tenantId: string, key: string) {
    forall id {:trigger id in records} | id in records :: !IsFor(records[id], tenantId, key)
  }

  /** What the index says about a key is what a scan of the records says. */
  lemma ScanByKey(b: Books, tenantId: string, key: string)
    requires Coherent(b) && Outbox.IsUuid(tenantId)
    ensures Key(tenantId, key) in b.index ==>
              var id := b.index[Key(tenantId, key)];
              id in b.records && b.records[id].tenantId == tenantId && b.records[id].proposalKey == key
    ensures Key(tenantId, key) !in b.index ==>
              forall id {:trigger id in b.records} | id in b.records ::
                b.records[id].tenantId != tenantId || b.records[id].proposalKey != key
  {
    var k := Key(tenantId, key);
    if k in b.index {
      var p := b.records[b.index[k]];
      KeyInjective(p.tenantId, p.proposalKey, tenantId, key);
    } else {
      assert forall id {:trigger id in b.records} | id in b.records :: id in Keys(b.records);
    }
  }

  lemma AddKeepsCoherent(b: Books, p: Proposal)
    requires Coherent(b) && p.id == b.n + 1 && GoodRecord(p, p.id, b.nextToken)
    requires Key(p.tenantId, p.proposalKey) !in b.index
    ensures Coherent(Books(b.records[p.id := p], b.index[Key(p.tenantId, p.proposalKey) := p.id], p.id, b.nextToken))
  {
    var k := Key(p.tenantId, p.proposalKey);
    AddKeepsInverse(b.index, Keys(b.records), p.id, k);
    assert Keys(b.records[p.id := p]) == Keys(b.records)[p.id := k];
  }

  lemma UpdateKeepsCoherent(b: Books, p: Proposal, nextToken: nat)
    requires Coherent(b) && p.id in b.records && GoodRecord(p, p.id, nextToken) && b.nextToken <= nextToken
    requires p.tenantId == b.records[p.id].tenantId && p.proposalKey == b.records[p.id].proposalKey
    ensures Coherent(b.(records := b.records[p.id := p], nextToken := nextToken))
  {
    assert Keys(b.records[p.id := p]) == Keys(b.records);
  }

  /** The call did to the tenant's proposal what the transition says, or changed nothing. */
  ghost predicate Applied(before: Proposals, after: Proposals, reply: Reply, tenantId: string, id: nat, op: Op) {
    if !Outbox.IsUuid(tenantId) then reply == Invalid && after == before
    else if id in before && before[id].tenantId == tenantId && Attempt(before[id], op).Some? then
      reply == Done(Attempt(before[id], op).value) && after == before[id := Attempt(before[id], op).value]
    else reply == Refused && after == before
  }

  class InMemoryLearningProposalRepository {
    var recordsById: Proposals
    var recordIdByKey: Index
    var lastId: nat
    var nextToken: nat
    /** Proposals with a `learning.proposal.approved.v1` row; the outbox keeps one row per proposal. */
    var approvalsEnqueued: set<nat>

    ghost predicate Valid()
      reads this
    {
      Coherent(Books(recordsById, recordIdByKey, lastId, nextToken))
    }

    constructor ()
      ensures Valid() && recordsById == map[] && approvalsEnqueued == {}
    {
      recordsById, recordIdByKey, lastId, nextToken, approvalsEnqueued := map[], map[], 0, 0, {};
    }

    method FindScopedRecord(tenantId: string, id: nat) returns (p: Option<Proposal>)
      ensures p == if id in recordsById && recordsById[id].tenantId == tenantId then Some(recordsById[id]) else None
    {
      if id in recordsById && recordsById[id].tenantId == tenantId {
        return Some(recordsById[id]);
      }
      return None;
    }

    /** The key is trimmed first; a second call for the same key returns the first record. */
    method Create(tenantId: string, proposalKey: string, risk: Gate.Risk, now: int) returns (reply: Reply)
      requires Valid()
      modifies this`recordsById, this`recordIdByKey, this`lastId
      ensures Valid() && reply != Refused
      ensures reply == Invalid <==> !Outbox.IsUuid(tenantId) || Trim(proposalKey) == ""
      ensures reply == Invalid ==> recordsById == old(recordsById)
      ensures reply.Done? ==>
                && var p := reply.proposal; var key := Trim(proposalKey);
                && IsFor(p, tenantId, key) && p.id in recordsById && recordsById[p.id] == p
                && if p.id in old(recordsById) then recordsById == old(recordsById)
                   else && NoneFor(old(recordsById), tenantId, key)
                        && p == NewProposal(p.id, tenantId, key, risk, now)
                        && recordsById == old(recordsById)[p.id := p]
    {
      var parsed := Trim(proposalKey);
      if !Outbox.IsUuid(tenantId) || parsed == "" {
        return Invalid;
      }
      var key := Key(tenantId, parsed);
      ghost var b := Books(recordsById, recordIdByKey, lastId, nextToken);
      ScanByKey(b, tenantId, parsed);
      if key in recordIdByKey {
        return Done(recordsById[recordIdByKey[key]]);
      }
      var p := NewProposal(lastId + 1, tenantId, parsed, risk, now);
      AddKeepsCoherent(b, p);
      lastId := lastId + 1;
      recordsById := recordsById[p.id := p];
      recordIdByKey := recordIdByKey[key := p.id];
      return Done(p);
    }

    method GetByProposalKey(tenantId: string, proposalKey: string) returns (reply: Reply)
      requires Valid()
      ensures reply == Invalid <==> !Outbox.IsUuid(tenantId)
      ensures reply == Refused ==> NoneFor(recordsById, tenantId, proposalKey)
      ensures reply.Done? ==>
                && var p := reply.proposal;
                && IsFor(p, tenantId, proposalKey) && p.id in recordsById && recordsById[p.id] == p
    {
      if !Outbox.IsUuid(tenantId) {
        return Invalid;
      }
      ScanByKey(Books(recordsById, recordIdByKey, lastId, nextToken), tenantId, proposalKey);
      if Key(tenantId, proposalKey) in recordIdByKey {
        return Done(recordsById[recordIdByKey[Key(tenantId, proposalKey)]]);
      }
      return Refused;
    }

    method RecordEvaluation(tenantId: string, id: nat, evaluation: Gate.Evaluation, decision: Gate.Decision, now: int)
      returns (reply: Reply)
      requires Valid()
      modifies this`recordsById
      ensures Valid()
      ensures Applied(old(recordsById), recordsById, reply, tenantId, id, EvaluationOp(evaluation, decision, now))
    {
      if !Outbox.IsUuid(tenantId) {
        return Invalid;
      }
      var existing := FindScopedRecord(tenantId, id);
      if existing.None?
         || existing.value.status !in {AwaitingEvidence, Evaluating, RequiresApproval, Approved}
         || HasActiveClaim(existing.value, now) {
        return Refused;
      }
      var updated := existing.value.(status := StatusFor(decision), decision := Some(decision),
                                     evaluation := Some(evaluation), promotionClaim := None, updatedAt := now);
      UpdateKeepsCoherent(Books(recordsById, recordIdByKey, lastId, nextToken), updated, nextToken);
      recordsById := recordsById[id := updated];
      return Done(updated);
    }

    /** The write is undone when the outbox throws; either way record and event go together. */
    method ApproveAndEnqueue(tenantId: string, id: nat, approvedBy: string, outboxAccepts: bool, now: int)
      returns (reply: Reply, threw: bool)
      requires Valid()
      modifies this`recordsById, this`approvalsEnqueued
      ensures Valid()
      ensures reply == Invalid <==> !Outbox.IsUuid(tenantId) || Trim(approvedBy) == ""
      ensures threw <==> reply == Invalid || (!outboxAccepts && reply != Refused)
      ensures threw ==> recordsById == old(recordsById) && approvalsEnqueued == old(approvalsEnqueued)
      ensures !threw ==>
                && Applied(old(recordsById), recordsById, reply, tenantId, id, ApproveOp(Trim(approvedBy), now))
                && approvalsEnqueued == old(approvalsEnqueued) + (if reply.Done? then {id} else {})
    {
      var parsed := Trim(approvedBy);
      if !Outbox.IsUuid(tenantId) || parsed == "" {
        return Invalid, true;
      }
      var existing := FindScopedRecord(tenantId, id);
      if existing.None? || existing.value.status != RequiresApproval {
        return Refused, false;
      }
      var updated := existing.value.(status := Approved, humanApprovedBy := Some(parsed), humanApprovedAt := Some(now),
                                     promotionClaim := None, updatedAt := now);
      WriteBoth(existing.value, updated, outboxAccepts);
      return Done(updated), !outboxAccepts;
    }

    /** Write, enqueue, and put the old record back when the outbox throws. */
    method WriteBoth(existing: Proposal, updated: Proposal, outboxAccepts: bool)
      requires Valid() && existing.id in recordsById && recordsById[existing.id] == existing
      requires updated.id == existing.id && GoodRecord(updated, updated.id, nextToken)
      requires updated.tenantId == existing.tenantId && updated.proposalKey == existing.proposalKey
      modifies this`recordsById, this`approvalsEnqueued
      ensures Valid()
      ensures recordsById == if outboxAccepts then old(recordsById)[existing.id := updated] else old(recordsById)
      ensures approvalsEnqueued == old(approvalsEnqueued) + (if outboxAccepts then {existing.id} else {})
    {
      UpdateKeepsCoherent(Books(recordsById, recordIdByKey, lastId, nextToken), updated, nextToken);
      recordsById := recordsById[existing.id := updated];
      if outboxAccepts {
        approvalsEnqueued := approvalsEnqueued + {existing.id};
      } else {
        recordsById := recordsById[existing.id := existing];
        assert recordsById == old(recordsById);
      }
    }

    /** A claim that succeeds takes a token no claim had before. */
    method ClaimPromotion(tenantId: string, id: nat, leaseMs: int, now: int) returns (reply: Reply)
      requires Valid()
      modifies this`recordsById, this`nextToken
      ensures Valid()
      ensures !(MIN_LEASE_MS <= leaseMs <= MAX_LEASE_MS) ==> reply == Invalid && recordsById == old(recordsById)
      ensures MIN_LEASE_MS <= leaseMs <= MAX_LEASE_MS ==>
                Applied(old(recordsById), recordsById, reply, tenantId, id, ClaimOp(old(nextToken), leaseMs, now))
      ensures nextToken == old(nextToken) + (if reply.Done? then 1 else 0)
    {
      if !Outbox.IsUuid(tenantId) || !(MIN_LEASE_MS <= leaseMs <= MAX_LEASE_MS) {
        return Invalid;
      }
      var existing := FindScopedRecord(tenantId, id);
      if existing.None? || existing.value.status != Approved || HasActiveClaim(existing.value, now) {
        return Refused;
      }
      var token := nextToken;
      var proposal := existing.value.(promotionClaim := Some(Claim(token, now + leaseMs)), updatedAt := now);
      UpdateKeepsCoherent(Books(recordsById, recordIdByKey, lastId, nextToken), proposal, nextToken + 1);
      nextToken := nextToken + 1;
      recordsById := recordsById[id := proposal];
      return Done(proposal);
    }

    method MarkPromoted(tenantId: string, id: nat, versionRef: nat, token: nat, now: int) returns (reply: Reply)
      requires Valid()
      modifies this`recordsById
      ensures Valid()
      ensures Applied(old(recordsById), recordsById, reply, tenantId, id, PromoteOp(versionRef, token, now))
    {
      if !Outbox.IsUuid(tenantId) {
        return Invalid;
      }
      var existing := FindScopedRecord(tenantId, id);
      if existing.None? || existing.value.status != Approved || existing.value.promotionClaim.None?
         || existing.value.promotionClaim.value.token != token || !HasActiveClaim(existing.value, now) {
        return Refused;
      }
      var updated := existing.value.(status := Promoted, promotedVersionRef := Some(versionRef),
                                     promotionClaim := None, updatedAt := now);
      UpdateKeepsCoherent(Books(recordsById, recordIdByKey, lastId, nextToken), updated, nextToken);
      recordsById := recordsById[id := updated];
      return Done(updated);
    }

    method MarkRolledBack(tenantId: string, id: nat, versionRef: nat, now: int) returns (reply: Reply)
      requires Valid()
      modifies this`recordsById
      ensures Valid()
      ensures Applied(old(recordsById), recordsById, reply, tenantId, id, RollBackOp(versionRef, now))
    {
      if !Outbox.IsUuid(tenantId) {
        return Invalid;
      }
      var existing := FindScopedRecord(tenantId, id);
      if existing.None? || existing.value.status != Promoted {
        return Refused;
      }
      var updated := existing.value.(status := RolledBack, rollbackVersionRef := Some(versionRef), updatedAt := now);
      UpdateKeepsCoherent(Books(recordsById, recordIdByKey, lastId, nextToken), updated, nextToken);
      recordsById := recordsById[id := updated];
      return Done(updated);
    }
  }
}
