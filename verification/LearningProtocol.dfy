/**
 * Any number of learning workers promoting playbook changes
 * (`processFromCritique`, `processApprovedProposal`, `recordPromotionDecision`,
 * `promotePlaybookChange`, `markProposalPromoted`,
 * apps/worker-learning/src/learning-worker.ts) over the proposal repository,
 * the playbook version store and the outbox.
 *
 * Every await is a step: workers interleave, crash at any of them and are
 * redelivered any message any number of times. A critique is named by the
 * number of its proposal. The proposal is stored under the trimmed text
 * `critique:<id>`; versions and update events carry the id as the delivered
 * message spells it, white space at its end included.
 */
module LearningProtocol {
  import opened Text
  import opened LearningProposals
  import Gate = PromotionGate
  import Playbooks = PlaybookVersions
  import Steps

  type PlaybookType = Playbooks.PlaybookType

  /** What a message says: a playbook type, and `critique:<id>` as it spells it. */
  datatype Delivery = Delivery(playbookType: PlaybookType, creator: string)

  /** A version's id is its position; its content does not matter here. */
  datatype Version = Version(critique: nat, delivery: Delivery)

  /** Which update event: of this critique, its id spelled this way. */
  datatype UpdateKey = UpdateKey(critique: nat, creator: string)

  datatype Pc =
    | Idle
    | EvidenceRead(critique: nat, delivery: Delivery, evaluation: Gate.Evaluation)  // before recordEvaluation
    | Eligible(critique: nat, delivery: Delivery)                                   // before claimPromotion
    | Claimed(critique: nat, delivery: Delivery, claim: Claim)                      // before listAll
    | NoneFound(critique: nat, delivery: Delivery, claim: Claim)                    // before create
    | HasVersion(critique: nat, delivery: Delivery, claim: Claim, version: nat)     // before the update event
    | Emitted(critique: nat, delivery: Delivery, claim: Claim, version: nat)        // before markPromoted

  const CRITIQUE := ['c', 'r', 'i', 't', 'i', 'q', 'u', 'e', ':']

  /** `critique:<id>` */
  predicate IsCritiqueKey(key: string) {
    |CRITIQUE| <= |key| && key[..|CRITIQUE|] == CRITIQUE
  }

  /** The text spells the id of the proposal that is stored under this key. */
  predicate Spells(creator: string, key: string) {
    IsCritiqueKey(creator) && Trim(creator) == key
  }

  const LEASE_MS := 60_000

  datatype Sys = Sys(
    proposals: map<nat, Proposal>,
    versions: seq<Version>,
    updated: map<UpdateKey, nat>,  // the version that the outbox row of the update event names
    now: int,
    nextToken: nat,
    workers: map<nat, Pc>)

  datatype Label =
    | Propose(critique: nat, tenantId: string, key: string, risk: Gate.Risk)
    | ReadEvidence(w: nat, critique: nat, delivery: Delivery, evaluation: Gate.Evaluation)
    | RecordDecision(w: nat)
    | HumanApproves(critique: nat, approver: string)
    | TakeClaim(w: nat, leaseMs: int)
    | ListVersions(w: nat)
    | CreateVersion(w: nat)
    | EmitUpdate(w: nat)
    | Mark(w: nat)
    | RollBack(critique: nat, version: nat)
    | Tick(elapsed: nat)
    | Crash(w: nat)

  function PcOf(s: Sys, w: nat): Pc {
    if w in s.workers then s.workers[w] else Idle
  }

  function Goto(s: Sys, w: nat, pc: Pc): Sys {
    s.(workers := s.workers[w := pc])
  }

  function Save(s: Sys, c: nat, p: Proposal): Sys {
    s.(proposals := s.proposals[c := p])
  }

  /** `priorVersions.find(...)` on the newest-first listing of one playbook type. */
  function FindVersion(versions: seq<Version>, c: nat, d: Delivery): (i: nat)
    ensures i <= |versions|
    ensures i < |versions| ==> versions[i] == Version(c, d)
    ensures i == |versions| ==> forall j | 0 <= j < |versions| :: versions[j] != Version(c, d)
  {
    if versions == [] then 0
    else if versions[|versions| - 1] == Version(c, d) then |versions| - 1
    else
      var i := FindVersion(versions[..|versions| - 1], c, d);
      if i == |versions| - 1 then |versions| else i
  }

  // ── Steps; a step that is not enabled changes nothing ────────────────────

  function ProposeStep(s: Sys, c: nat, tenantId: string, key: string, risk: Gate.Risk): Sys {
    if c in s.proposals then s else Save(s, c, NewProposal(c, tenantId, key, risk, s.now))
  }

  /** The evidence provider copies risk and human approval from the stored proposal. */
  predicate FromStored(e: Gate.Evaluation, p: Proposal) {
    e.risk == p.risk && e.humanApproved == p.humanApprovedAt.Some?
  }

  function ReadStep(s: Sys, w: nat, c: nat, d: Delivery, e: Gate.Evaluation): Sys {
    if PcOf(s, w).Idle? && c in s.proposals && FromStored(e, s.proposals[c]) then Goto(s, w, EvidenceRead(c, d, e))
    else s
  }

  /** Evaluate, which throws on evidence out of range, and record the decision; None when nothing is recorded. */
  function Decided(p: Proposal, e: Gate.Evaluation, policy: Gate.Policy, now: int): Option<Proposal> {
    match Gate.Evaluate(e, policy)
    case None => None
    case Some(decision) => RecordEvaluation(p, e, decision, now)
  }

  function RecordStep(s: Sys, w: nat, policy: Gate.Policy): Sys {
    match PcOf(s, w)
    case EvidenceRead(c, d, e) =>
      if c !in s.proposals then s
      else
        (match Decided(s.proposals[c], e, policy, s.now)
         case None => Goto(s, w, Idle)
         case Some(p) => Goto(Save(s, c, p), w, if p.status.Approved? then Eligible(c, d) else Idle))
    case _ => s
  }

  function ApproveStep(s: Sys, c: nat, approver: string): Sys {
    if c !in s.proposals then s
    else
      match Approve(s.proposals[c], approver, s.now)
      case None => s
      case Some(p) => Save(s, c, p)
  }

  function ClaimStep(s: Sys, w: nat, leaseMs: int): Sys {
    match PcOf(s, w)
    case Eligible(c, d) =>
      if c !in s.proposals then s
      else
        (match ClaimPromotion(s.proposals[c], s.nextToken, leaseMs, s.now)
         case None => Goto(s, w, Idle)
         case Some(p) =>
           Goto(Save(s, c, p), w, Claimed(c, d, Claim(s.nextToken, s.now + leaseMs))).(nextToken := s.nextToken + 1))
    case _ => s
  }

  function ListStep(s: Sys, w: nat): Sys {
    match PcOf(s, w)
    case Claimed(c, d, claim) =>
      var i := FindVersion(s.versions, c, d);
      Goto(s, w, if i < |s.versions| then HasVersion(c, d, claim, i) else NoneFound(c, d, claim))
    case _ => s
  }

  function CreateStep(s: Sys, w: nat): Sys {
    match PcOf(s, w)
    case NoneFound(c, d, claim) =>
      Goto(s.(versions := s.versions + [Version(c, d)]), w, HasVersion(c, d, claim, |s.versions|))
    case _ => s
  }

  /** The outbox keeps the first event under each key. */
  function WithUpdate(updated: map<UpdateKey, nat>, k: UpdateKey, v: nat): map<UpdateKey, nat> {
    if k in updated then updated else updated[k := v]
  }

  function EmitStep(s: Sys, w: nat): Sys {
    match PcOf(s, w)
    case HasVersion(c, d, claim, v) =>
      Goto(s.(updated := WithUpdate(s.updated, UpdateKey(c, d.creator), v)), w, Emitted(c, d, claim, v))
    case _ => s
  }

  function MarkStep(s: Sys, w: nat): Sys {
    match PcOf(s, w)
    case Emitted(c, _, claim, v) =>
      if c !in s.proposals then s
      else
        (match MarkPromoted(s.proposals[c], v, claim.token, s.now)
         case None => Goto(s, w, Idle)
         case Some(p) => Goto(Save(s, c, p), w, Idle))
    case _ => s
  }

  function RollBackStep(s: Sys, c: nat, v: nat): Sys {
    if c !in s.proposals then s
    else
      match MarkRolledBack(s.proposals[c], v, s.now)
      case None => s
      case Some(p) => Save(s, c, p)
  }

  function Do(s: Sys, l: Label, policy: Gate.Policy): Sys {
    match l
    case Propose(c, tenantId, key, risk) => ProposeStep(s, c, tenantId, key, risk)
    case ReadEvidence(w, c, d, e) => ReadStep(s, w, c, d, e)
    case RecordDecision(w) => RecordStep(s, w, policy)
    case HumanApproves(c, approver) => ApproveStep(s, c, approver)
    case TakeClaim(w, leaseMs) => ClaimStep(s, w, leaseMs)
    case ListVersions(w) => ListStep(s, w)
    case CreateVersion(w) => CreateStep(s, w)
    case EmitUpdate(w) => EmitStep(s, w)
    case Mark(w) => MarkStep(s, w)
    case RollBack(c, v) => RollBackStep(s, c, v)
    case Tick(elapsed) => s.(now := s.now + elapsed)
    case Crash(w) => Goto(s, w, Idle)
  }

  /** The step function under a fixed policy. */
  function Under(policy: Gate.Policy): (Sys, Label) -> Sys {
    (s: Sys, l: Label) => Do(s, l, policy)
  }

  function RunAll(s: Sys, labels: seq<Label>, policy: Gate.Policy): Sys {
    Steps.Run(s, labels, Under(policy))
  }

  const Start := Sys(map[], [], map[], 0, 0, map[])

  // ── Governance ───────────────────────────────────────────────────────────

  /** The stored evaluation passed every gate, and its last decision said so. */
  predicate Gated(p: Proposal, policy: Gate.Policy) {
    && p.decision in {Some(Gate.Promote), Some(Gate.RequiresApproval)} && Gate.ValidPolicy(policy)
    && p.evaluation.Some? && Gate.ValidEvaluation(p.evaluation.value) && Gate.PassesGates(p.evaluation.value, policy)
  }

  /** What the status of a proposal guarantees. */
  predicate Governed(p: Proposal, policy: Gate.Policy) {
    match p.status
    case Approved => Gated(p, policy) && (p.risk in policy.humanApprovalFor ==> p.humanApprovedAt.Some?)
    case Promoted => Gated(p, policy) && (p.risk in policy.humanApprovalFor ==> p.humanApprovedAt.Some?)
    case RolledBack => Gated(p, policy) && (p.risk in policy.humanApprovalFor ==> p.humanApprovedAt.Some?)
    case RequiresApproval => Gated(p, policy)
    case _ => true
  }

  /** Evidence read earlier is still about this proposal; an approval it saw is still there. */
  predicate StillAbout(e: Gate.Evaluation, p: Proposal) {
    e.risk == p.risk && (e.humanApproved ==> p.humanApprovedAt.Some?)
  }

  predicate GovernedPc(pc: Pc, proposals: map<nat, Proposal>) {
    match pc
    case EvidenceRead(c, _, e) => c in proposals && StillAbout(e, proposals[c])
    case _ => true
  }

  ghost predicate GovernanceInv(s: Sys, policy: Gate.Policy) {
    match s
    case Sys(proposals, _, _, _, _, workers) =>
      && (forall c {:trigger c in proposals} | c in proposals :: Governed(proposals[c], policy))
      && (forall w {:trigger w in workers} | w in workers :: GovernedPc(workers[w], proposals))
  }

  /** A proposal keeps its risk and never loses an approval. */
  predicate Advances(p: Proposal, q: Proposal) {
    p.risk == q.risk && (p.humanApprovedAt.Some? ==> q.humanApprovedAt.Some?)
  }

  lemma SaveKeepsGovernance(s: Sys, c: nat, p: Proposal, policy: Gate.Policy)
    requires GovernanceInv(s, policy) && Governed(p, policy)
    requires c in s.proposals ==> Advances(s.proposals[c], p)
    ensures GovernanceInv(Save(s, c, p), policy)
  {
    var proposals' := s.proposals[c := p];
    forall w | w in s.workers
      ensures GovernedPc(s.workers[w], proposals')
    {
      assert GovernedPc(s.workers[w], s.proposals);
    }
  }

  lemma GotoKeepsGovernance(s: Sys, w: nat, pc: Pc, policy: Gate.Policy)
    requires GovernanceInv(s, policy) && GovernedPc(pc, s.proposals)
    ensures GovernanceInv(Goto(s, w, pc), policy)
  {
  }

  lemma RecordKeepsGovernance(s: Sys, w: nat, policy: Gate.Policy)
    requires GovernanceInv(s, policy)
    ensures GovernanceInv(RecordStep(s, w, policy), policy)
  {
    if PcOf(s, w).EvidenceRead? {
      var EvidenceRead(c, d, e) := PcOf(s, w);
      assert GovernedPc(s.workers[w], s.proposals);
      Gate.FavourableIff(e, policy);
      var done := Decided(s.proposals[c], e, policy, s.now);
      if done.Some? {
        SaveKeepsGovernance(s, c, done.value, policy);
        GotoKeepsGovernance(Save(s, c, done.value), w, if done.value.status.Approved? then Eligible(c, d) else Idle,
                            policy);
      } else {
        GotoKeepsGovernance(s, w, Idle, policy);
      }
    }
  }

  /** Steps that put a proposal forward without evaluating it. */
  lemma OtherSavesKeepGovernance(s: Sys, c: nat, op: Op, policy: Gate.Policy)
    requires GovernanceInv(s, policy) && c in s.proposals && !op.EvaluationOp?
    requires Attempt(s.proposals[c], op).Some?
    ensures GovernanceInv(Save(s, c, Attempt(s.proposals[c], op).value), policy)
  {
    assert Governed(s.proposals[c], policy);
    SaveKeepsGovernance(s, c, Attempt(s.proposals[c], op).value, policy);
  }

  lemma ClaimKeepsGovernance(s: Sys, w: nat, leaseMs: int, policy: Gate.Policy)
    requires GovernanceInv(s, policy)
    ensures GovernanceInv(ClaimStep(s, w, leaseMs), policy)
  {
    if PcOf(s, w).Eligible? && PcOf(s, w).critique in s.proposals {
      var Eligible(c, d) := PcOf(s, w);
      var op := ClaimOp(s.nextToken, leaseMs, s.now);
      if Attempt(s.proposals[c], op).Some? {
        OtherSavesKeepGovernance(s, c, op, policy);
        GotoKeepsGovernance(Save(s, c, Attempt(s.proposals[c], op).value), w,
                            Claimed(c, d, Claim(s.nextToken, s.now + leaseMs)), policy);
      } else {
        GotoKeepsGovernance(s, w, Idle, policy);
      }
    }
  }

  lemma MarkKeepsGovernance(s: Sys, w: nat, policy: Gate.Policy)
    requires GovernanceInv(s, policy)
    ensures GovernanceInv(MarkStep(s, w), policy)
  {
    if PcOf(s, w).Emitted? && PcOf(s, w).critique in s.proposals {
      var Emitted(c, d, claim, v) := PcOf(s, w);
      var op := PromoteOp(v, claim.token, s.now);
      if Attempt(s.proposals[c], op).Some? {
        OtherSavesKeepGovernance(s, c, op, policy);
        GotoKeepsGovernance(Save(s, c, Attempt(s.proposals[c], op).value), w, Idle, policy);
      } else {
        GotoKeepsGovernance(s, w, Idle, policy);
      }
    }
  }

  lemma DoKeepsGovernance(s: Sys, l: Label, policy: Gate.Policy)
    requires GovernanceInv(s, policy)
    ensures GovernanceInv(Do(s, l, policy), policy)
  {
    match l
    case Propose(c, tenantId, key, risk) =>
      if c !in s.proposals {
        SaveKeepsGovernance(s, c, NewProposal(c, tenantId, key, risk, s.now), policy);
      }
    case RecordDecision(w) => RecordKeepsGovernance(s, w, policy);
    case HumanApproves(c, approver) =>
      if c in s.proposals && Approve(s.proposals[c], approver, s.now).Some? {
        OtherSavesKeepGovernance(s, c, ApproveOp(approver, s.now), policy);
      }
    case TakeClaim(w, leaseMs) => ClaimKeepsGovernance(s, w, leaseMs, policy);
    case Mark(w) => MarkKeepsGovernance(s, w, policy);
    case RollBack(c, v) =>
      if c in s.proposals && MarkRolledBack(s.proposals[c], v, s.now).Some? {
        OtherSavesKeepGovernance(s, c, RollBackOp(v, s.now), policy);
      }
    case _ =>
  }

  lemma {:induction false} RunKeepsGovernance(s: Sys, labels: seq<Label>, policy: Gate.Policy)
    requires GovernanceInv(s, policy)
    ensures GovernanceInv(RunAll(s, labels, policy), policy)
    decreases |labels|
  {
    if labels != [] {
      DoKeepsGovernance(s, labels[0], policy);
      RunKeepsGovernance(Do(s, labels[0], policy), labels[1..], policy);
    }
  }

  /**
   * Governance over every run of any number of workers under a fixed policy:
   * an approved, promoted or rolled-back proposal was last decided `promote`
   * or `requires_approval`, its stored evaluation passes the guardrail,
   * evidence and lift gates, its candidate was strictly better than the
   * baseline by the share the policy asks for, and a risk the policy reserves
   * for humans has a human approval.
   */
  lemma GovernanceSafety(labels: seq<Label>, policy: Gate.Policy, c: nat)
    requires c in RunAll(Start, labels, policy).proposals
    requires RunAll(Start, labels, policy).proposals[c].status in {Approved, Promoted, RolledBack}
    ensures var p := RunAll(Start, labels, policy).proposals[c];
            && p.decision in {Some(Gate.Promote), Some(Gate.RequiresApproval)}
            && p.evaluation.Some?
            && Gate.ValidEvaluation(p.evaluation.value) && Gate.PassesGates(p.evaluation.value, policy)
            && MeasuredBetter(p.evaluation.value, policy)
            && (p.risk in policy.humanApprovalFor ==> p.humanApprovedAt.Some?)
  {
    RunKeepsGovernance(Start, labels, policy);
    var p := RunAll(Start, labels, policy).proposals[c];
    assert Governed(p, policy);
    GatesMeasureBetter(p.evaluation.value, policy);
  }

  /** What the gates mean for the measurements. */
  predicate MeasuredBetter(e: Gate.Evaluation, policy: Gate.Policy) {
    && e.worstGuardrailRegression <= policy.maxGuardrailRegression && e.confidence >= policy.minConfidence
    && e.evidenceCount >= policy.minEvidence && e.uniqueEntities >= policy.minUniqueEntities
    && Gate.LiftReached(e.metricDirection, e.baselineMetric, e.candidateMetric, policy.minRelativeLift)
    && match e.metricDirection
       case Increase => e.candidateMetric > e.baselineMetric
       case Decrease => e.candidateMetric < e.baselineMetric
  }

  lemma GatesMeasureBetter(e: Gate.Evaluation, policy: Gate.Policy)
    requires Gate.ValidEvaluation(e) && Gate.ValidPolicy(policy) && Gate.PassesGates(e, policy)
    ensures MeasuredBetter(e, policy)
  {
    Gate.FavourableIff(e, policy);
    Gate.OnlyBetterIsFavoured(e, policy);
    Gate.LiftIsReached(e, policy.minRelativeLift);
  }

  // ── Promotion and its event ──────────────────────────────────────────────

  /** Version v was made for this critique. */
  predicate CreatedBy(versions: seq<Version>, c: nat, v: nat) {
    v < |versions| && versions[v].critique == c
  }

  predicate IsVersion(versions: seq<Version>, v: nat, c: nat, d: Delivery) {
    v < |versions| && versions[v] == Version(c, d)
  }

  /** The update event that goes with a version. */
  function EventOf(v: Version): UpdateKey {
    UpdateKey(v.critique, v.delivery.creator)
  }

  /** A promoted proposal names a version made for it, and that version's event is in the outbox. */
  predicate Announced(c: nat, p: Proposal, versions: seq<Version>, updated: map<UpdateKey, nat>) {
    p.status in {Promoted, RolledBack} ==>
      && p.promotedVersionRef.Some? && CreatedBy(versions, c, p.promotedVersionRef.value)
      && EventOf(versions[p.promotedVersionRef.value]) in updated
  }

  predicate AnnouncedPc(pc: Pc, versions: seq<Version>, updated: map<UpdateKey, nat>) {
    match pc
    case HasVersion(c, d, _, v) => IsVersion(versions, v, c, d)
    case Emitted(c, d, _, v) => IsVersion(versions, v, c, d) && UpdateKey(c, d.creator) in updated
    case _ => true
  }

  /** An update event names a version it goes with. */
  predicate NamesVersion(versions: seq<Version>, k: UpdateKey, v: nat) {
    v < |versions| && EventOf(versions[v]) == k
  }

  ghost predicate EventInv(s: Sys) {
    match s
    case Sys(proposals, versions, updated, _, _, workers) =>
      && (forall c {:trigger c in proposals} | c in proposals :: Announced(c, proposals[c], versions, updated))
      && (forall w {:trigger w in workers} | w in workers :: AnnouncedPc(workers[w], versions, updated))
      && (forall k {:trigger k in updated} | k in updated :: NamesVersion(versions, k, updated[k]))
  }

  lemma GotoKeepsEvents(s: Sys, w: nat, pc: Pc)
    requires EventInv(s) && AnnouncedPc(pc, s.versions, s.updated)
    ensures EventInv(Goto(s, w, pc))
  {
  }

  lemma SaveKeepsEvents(s: Sys, c: nat, p: Proposal)
    requires EventInv(s) && Announced(c, p, s.versions, s.updated)
    ensures EventInv(Save(s, c, p))
  {
  }

  lemma CreateKeepsEvents(s: Sys, w: nat)
    requires EventInv(s)
    ensures EventInv(CreateStep(s, w))
  {
    if PcOf(s, w).NoneFound? {
      var NoneFound(c, d, claim) := PcOf(s, w);
      var s1 := s.(versions := s.versions + [Version(c, d)]);
      assert forall v | 0 <= v < |s.versions| :: s1.versions[v] == s.versions[v];
      assert EventInv(s1);
      GotoKeepsEvents(s1, w, HasVersion(c, d, claim, |s.versions|));
    }
  }

  lemma EmitKeepsEvents(s: Sys, w: nat)
    requires EventInv(s)
    ensures EventInv(EmitStep(s, w))
  {
    if PcOf(s, w).HasVersion? {
      var HasVersion(c, d, claim, v) := PcOf(s, w);
      assert AnnouncedPc(s.workers[w], s.versions, s.updated);
      var s1 := s.(updated := WithUpdate(s.updated, UpdateKey(c, d.creator), v));
      assert EventInv(s1);
      GotoKeepsEvents(s1, w, Emitted(c, d, claim, v));
    }
  }

  lemma MarkKeepsEvents(s: Sys, w: nat)
    requires EventInv(s)
    ensures EventInv(MarkStep(s, w))
  {
    if PcOf(s, w).Emitted? && PcOf(s, w).critique in s.proposals {
      var Emitted(c, d, claim, v) := PcOf(s, w);
      assert AnnouncedPc(s.workers[w], s.versions, s.updated);
      var done := MarkPromoted(s.proposals[c], v, claim.token, s.now);
      if done.Some? {
        SaveKeepsEvents(s, c, done.value);
        GotoKeepsEvents(Save(s, c, done.value), w, Idle);
      } else {
        GotoKeepsEvents(s, w, Idle);
      }
    }
  }

  lemma StoredStepKeepsEvents(s: Sys, c: nat, op: Op)
    requires EventInv(s) && c in s.proposals && !op.PromoteOp? && Attempt(s.proposals[c], op).Some?
    ensures EventInv(Save(s, c, Attempt(s.proposals[c], op).value))
  {
    assert Announced(c, s.proposals[c], s.versions, s.updated);
    SaveKeepsEvents(s, c, Attempt(s.proposals[c], op).value);
  }

  lemma RecordKeepsEvents(s: Sys, w: nat, policy: Gate.Policy)
    requires EventInv(s)
    ensures EventInv(RecordStep(s, w, policy))
  {
    if PcOf(s, w).EvidenceRead? && PcOf(s, w).critique in s.proposals {
      var EvidenceRead(c, d, e) := PcOf(s, w);
      var done := Decided(s.proposals[c], e, policy, s.now);
      if done.Some? {
        StoredStepKeepsEvents(s, c, EvaluationOp(e, Gate.Evaluate(e, policy).value, s.now));
        GotoKeepsEvents(Save(s, c, done.value), w, if done.value.status.Approved? then Eligible(c, d) else Idle);
      } else {
        GotoKeepsEvents(s, w, Idle);
      }
    }
  }

  lemma ClaimKeepsEvents(s: Sys, w: nat, leaseMs: int)
    requires EventInv(s)
    ensures EventInv(ClaimStep(s, w, leaseMs))
  {
    if PcOf(s, w).Eligible? && PcOf(s, w).critique in s.proposals {
      var Eligible(c, d) := PcOf(s, w);
      var op := ClaimOp(s.nextToken, leaseMs, s.now);
      if Attempt(s.proposals[c], op).Some? {
        StoredStepKeepsEvents(s, c, op);
        GotoKeepsEvents(Save(s, c, Attempt(s.proposals[c], op).value), w,
                        Claimed(c, d, Claim(s.nextToken, s.now + leaseMs)));
      } else {
        GotoKeepsEvents(s, w, Idle);
      }
    }
  }

  lemma DoKeepsEvents(s: Sys, l: Label, policy: Gate.Policy)
    requires EventInv(s)
    ensures EventInv(Do(s, l, policy))
  {
    match l
    case Propose(c, tenantId, key, risk) =>
      if c !in s.proposals {
        SaveKeepsEvents(s, c, NewProposal(c, tenantId, key, risk, s.now));
      }
    case ReadEvidence(w, c, d, e) =>
      if ReadStep(s, w, c, d, e) != s {
        GotoKeepsEvents(s, w, EvidenceRead(c, d, e));
      }
    case RecordDecision(w) => RecordKeepsEvents(s, w, policy);
    case HumanApproves(c, approver) =>
      if c in s.proposals && Approve(s.proposals[c], approver, s.now).Some? {
        StoredStepKeepsEvents(s, c, ApproveOp(approver, s.now));
      }
    case TakeClaim(w, leaseMs) => ClaimKeepsEvents(s, w, leaseMs);
    case ListVersions(w) =>
      if PcOf(s, w).Claimed? {
        var Claimed(c, d, claim) := PcOf(s, w);
        var i := FindVersion(s.versions, c, d);
        GotoKeepsEvents(s, w, if i < |s.versions| then HasVersion(c, d, claim, i) else NoneFound(c, d, claim));
      }
    case CreateVersion(w) => CreateKeepsEvents(s, w);
    case EmitUpdate(w) => EmitKeepsEvents(s, w);
    case Mark(w) => MarkKeepsEvents(s, w);
    case RollBack(c, v) =>
      if c in s.proposals && MarkRolledBack(s.proposals[c], v, s.now).Some? {
        StoredStepKeepsEvents(s, c, RollBackOp(v, s.now));
      }
    case Tick(_) =>
    case Crash(w) => GotoKeepsEvents(s, w, Idle);
  }

  lemma {:induction false} RunKeepsEvents(s: Sys, labels: seq<Label>, policy: Gate.Policy)
    requires EventInv(s)
    ensures EventInv(RunAll(s, labels, policy))
    decreases |labels|
  {
    if labels != [] {
      DoKeepsEvents(s, labels[0], policy);
      RunKeepsEvents(Do(s, labels[0], policy), labels[1..], policy);
    }
  }

  /**
   * In every run, with no condition on clocks, leases or deliveries: a promoted
   * proposal names a version made for its critique, that version's update event
   * is in the outbox already, and every update event names a version it goes with.
   */
  lemma PromotionsAreAnnounced(labels: seq<Label>, policy: Gate.Policy, c: nat, k: UpdateKey)
    ensures var s := RunAll(Start, labels, policy);
            && (c in s.proposals ==> Announced(c, s.proposals[c], s.versions, s.updated))
            && (k in s.updated ==> NamesVersion(s.versions, k, s.updated[k]))
  {
    RunKeepsEvents(Start, labels, policy);
  }
}
