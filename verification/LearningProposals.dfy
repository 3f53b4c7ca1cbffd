/**
 * The life of one learning proposal (`InMemoryLearningProposalRepository`,
 * packages/db/src/adaptive-control-plane-repository.ts): evaluation, human
 * approval, a fenced and expiring promotion lease, terminal marking.
 */
module LearningProposals {
  import opened Text
  import Gate = PromotionGate

  datatype Status = AwaitingEvidence | Evaluating | RequiresApproval | Approved | Rejected | Promoted | RolledBack

  datatype Claim = Claim(token: nat, expiresAt: int)

  datatype Proposal = Proposal(
    id: nat,
    tenantId: string,
    proposalKey: string,
    risk: Gate.Risk,
    status: Status,
    evaluation: Option<Gate.Evaluation>,
    decision: Option<Gate.Decision>,
    promotedVersionRef: Option<nat>,
    rollbackVersionRef: Option<nat>,
    humanApprovedBy: Option<string>,
    humanApprovedAt: Option<int>,
    promotionClaim: Option<Claim>,
    updatedAt: int)

  function NewProposal(id: nat, tenantId: string, key: string, risk: Gate.Risk, now: int): Proposal {
    Proposal(id, tenantId, key, risk, AwaitingEvidence, None, None, None, None, None, None, None, now)
  }

  predicate HasActiveClaim(p: Proposal, now: int) {
    p.promotionClaim.Some? && p.promotionClaim.value.expiresAt > now
  }

  function StatusFor(d: Gate.Decision): Status {
    match d
    case ContinueExperiment => AwaitingEvidence
    case Reject => Rejected
    case RequiresApproval => RequiresApproval
    case Promote => Approved
  }

  // ── Repository steps; None is the refusal the source returns as null ─────

  function RecordEvaluation(p: Proposal, e: Gate.Evaluation, d: Gate.Decision, now: int): Option<Proposal> {
    if p.status !in {AwaitingEvidence, Evaluating, RequiresApproval, Approved} || HasActiveClaim(p, now) then None
    else Some(p.(status := StatusFor(d), decision := Some(d), evaluation := Some(e), promotionClaim := None,
                 updatedAt := now))
  }

  function Approve(p: Proposal, approver: string, now: int): Option<Proposal> {
    if !p.status.RequiresApproval? then None
    else Some(p.(status := Approved, humanApprovedBy := Some(approver), humanApprovedAt := Some(now),
                 promotionClaim := None, updatedAt := now))
  }

  function ClaimPromotion(p: Proposal, token: nat, leaseMs: int, now: int): Option<Proposal> {
    if !p.status.Approved? || HasActiveClaim(p, now) then None
    else Some(p.(promotionClaim := Some(Claim(token, now + leaseMs)), updatedAt := now))
  }

  function MarkPromoted(p: Proposal, versionRef: nat, token: nat, now: int): Option<Proposal> {
    if !p.status.Approved? || p.promotionClaim.None? || p.promotionClaim.value.token != token
       || !HasActiveClaim(p, now) then None
    else Some(p.(status := Promoted, promotedVersionRef := Some(versionRef), promotionClaim := None, updatedAt := now))
  }

  function MarkRolledBack(p: Proposal, versionRef: nat, now: int): Option<Proposal> {
    if !p.status.Promoted? then None
    else Some(p.(status := RolledBack, rollbackVersionRef := Some(versionRef), updatedAt := now))
  }

  /** The nullable fields that the status determines. */
  predicate Shaped(p: Proposal) {
    && (p.promotionClaim.Some? ==> p.status.Approved?)
    && (p.promotedVersionRef.Some? <==> p.status in {Promoted, RolledBack})
    && (p.rollbackVersionRef.Some? <==> p.status.RolledBack?)
    && (p.humanApprovedBy.Some? <==> p.humanApprovedAt.Some?)
    && (p.decision.Some? <==> p.evaluation.Some?)
    && (p.status !in {AwaitingEvidence, Evaluating} ==> p.decision.Some?)
  }

  // ── Runs of arbitrary calls on one proposal ──────────────────────────────

  datatype Op =
    | EvaluationOp(evaluation: Gate.Evaluation, decision: Gate.Decision, now: int)
    | ApproveOp(approver: string, now: int)
    | ClaimOp(token: nat, leaseMs: int, now: int)
    | PromoteOp(versionRef: nat, token: nat, now: int)
    | RollBackOp(versionRef: nat, now: int)

  function Attempt(p: Proposal, op: Op): Option<Proposal> {
    match op
    case EvaluationOp(e, d, now) => RecordEvaluation(p, e, d, now)
    case ApproveOp(approver, now) => Approve(p, approver, now)
    case ClaimOp(token, leaseMs, now) => ClaimPromotion(p, token, leaseMs, now)
    case PromoteOp(ref, token, now) => MarkPromoted(p, ref, token, now)
    case RollBackOp(ref, now) => MarkRolledBack(p, ref, now)
  }

  lemma AttemptKeepsShaped(p: Proposal, op: Op)
    requires Shaped(p) && Attempt(p, op).Some?
    ensures Shaped(Attempt(p, op).value)
  {
  }

  function Next(p: Proposal, op: Op): Proposal {
    var q := Attempt(p, op); if q.Some? then q.value else p
  }

  function Run(p: Proposal, ops: seq<Op>): Proposal {
    if ops == [] then p else Next(Run(p, ops[..|ops| - 1]), ops[|ops| - 1])
  }

  function Before(p: Proposal, ops: seq<Op>, i: nat): Proposal
    requires i <= |ops|
  {
    Run(p, ops[..i])
  }

  /** The call at i was accepted. */
  predicate Accepted(p: Proposal, ops: seq<Op>, i: nat)
    requires i < |ops|
  {
    Attempt(Before(p, ops, i), ops[i]).Some?
  }

  lemma BeforeNext(p: Proposal, ops: seq<Op>, i: nat)
    requires i < |ops|
    ensures Before(p, ops, i + 1) == Next(Before(p, ops, i), ops[i])
  {
    assert ops[..i + 1][..i] == ops[..i];
  }

  /** `crypto.randomUUID()`: no two claims draw the same token. */
  predicate FreshTokens(ops: seq<Op>) {
    forall i, j | 0 <= i < j < |ops| && ops[i].ClaimOp? && ops[j].ClaimOp? :: ops[i].token != ops[j].token
  }

  predicate HoldsToken(p: Proposal, token: nat) {
    p.promotionClaim.Some? && p.promotionClaim.value.token == token
  }

  /** After a claim at i: as soon as anything is accepted, its token is gone for good. */
  lemma {:induction false} TokenLastsUntilTouched(p: Proposal, ops: seq<Op>, i: nat, k: nat)
    requires FreshTokens(ops) && i < k <= |ops| && ops[i].ClaimOp? && Accepted(p, ops, i)
    requires HoldsToken(Before(p, ops, k), ops[i].token)
    ensures Before(p, ops, k).status.Approved? && forall m | i < m < k :: !Accepted(p, ops, m)
    decreases k
  {
    BeforeNext(p, ops, k - 1);
    if k > i + 1 {
      assert ops[k - 1].ClaimOp? ==> ops[k - 1].token != ops[i].token;
      TokenLastsUntilTouched(p, ops, i, k - 1);
    }
  }

  lemma {:induction false} PromotionIsFinal(p: Proposal, ops: seq<Op>, i: nat, k: nat)
    requires i < k <= |ops| && ops[i].PromoteOp? && Accepted(p, ops, i)
    ensures Before(p, ops, k).status in {Promoted, RolledBack}
    ensures Before(p, ops, k).promotedVersionRef == Some(ops[i].versionRef)
    decreases k
  {
    BeforeNext(p, ops, k - 1);
    if k > i + 1 {
      PromotionIsFinal(p, ops, i, k - 1);
    }
  }

  /**
   * Fencing: when the token of a claim succeeds in marking the promotion, no
   * evaluation, approval, claim, promotion or roll-back was accepted in
   * between, whatever was attempted and whatever the clock did.
   */
  lemma Fencing(p: Proposal, ops: seq<Op>, i: nat, j: nat, m: nat)
    requires FreshTokens(ops) && i < m < j < |ops|
    requires ops[i].ClaimOp? && Accepted(p, ops, i)
    requires ops[j].PromoteOp? && Accepted(p, ops, j) && ops[j].token == ops[i].token
    ensures !Accepted(p, ops, m)
  {
    TokenLastsUntilTouched(p, ops, i, j);
  }

  /** The promoted version is written at most once, and two accepted promotions are the same call. */
  lemma PromotedVersionIsWrittenOnce(p: Proposal, ops: seq<Op>, i: nat, j: nat)
    requires i < |ops| && j < |ops| && ops[i].PromoteOp? && ops[j].PromoteOp?
    requires Accepted(p, ops, i) && Accepted(p, ops, j)
    ensures i == j
    ensures Run(p, ops).promotedVersionRef == Some(ops[i].versionRef)
  {
    if i < j {
      PromotionIsFinal(p, ops, i, j);
    } else if j < i {
      PromotionIsFinal(p, ops, j, i);
    }
    PromotionIsFinal(p, ops, i, |ops|);
    assert ops[..|ops|] == ops;
  }

  /** Rejected and rolled-back proposals never change again. */
  lemma {:induction false} TerminalIsAbsorbing(p: Proposal, ops: seq<Op>)
    requires p.status in {Rejected, RolledBack}
    ensures Run(p, ops) == p
    decreases |ops|
  {
    if ops != [] {
      TerminalIsAbsorbing(p, ops[..|ops| - 1]);
    }
  }

  // ── What an accepted call leaves ─────────────────────────────────────────

  /** Nothing has closed the proposal, and no lease stands at that time. */
  predicate OpenAt(p: Proposal, now: int) {
    && !p.status.Rejected? && !p.status.Promoted? && !p.status.RolledBack?
    && match p.promotionClaim case None => true case Some(claim) => claim.expiresAt <= now
  }

  /** The names of a proposal and who approved it. */
  predicate SameProposal(p: Proposal, q: Proposal) {
    match (p, q)
    case (Proposal(id, t, k, r, _, _, _, _, _, _, _, _, _), Proposal(id', t', k', r', _, _, _, _, _, _, _, _, _)) =>
      id == id' && t == t' && k == k' && r == r'
  }

  /** An open proposal takes any decision; that decision alone says where it goes, and an older lease is dropped. */
  lemma DecisionLeads(p: Proposal, e: Gate.Evaluation, d: Gate.Decision, now: int)
    ensures Attempt(p, EvaluationOp(e, d, now)).Some? <==> OpenAt(p, now)
    ensures OpenAt(p, now) ==>
              var q := Attempt(p, EvaluationOp(e, d, now)).value;
              && SameProposal(p, q) && q.evaluation == Some(e) && q.decision == Some(d) && q.promotionClaim.None?
              && q.humanApprovedBy == p.humanApprovedBy
              && (q.status.Approved? <==> d.Promote?) && (q.status.RequiresApproval? <==> d.RequiresApproval?)
              && (q.status.Rejected? <==> d.Reject?) && (q.status.AwaitingEvidence? <==> d.ContinueExperiment?)
  {
  }

  /** Until a claim's lease runs out only its own token promotes; afterwards anyone may claim or evaluate. */
  lemma LeaseIsExact(p: Proposal, token: nat, leaseMs: int, now: int, e: Gate.Evaluation, d: Gate.Decision, ref: nat,
                     other: nat, later: int)
    requires p.status.Approved? && OpenAt(p, now)
    ensures Attempt(p, ClaimOp(token, leaseMs, now)).Some?
    ensures var q := Next(p, ClaimOp(token, leaseMs, now));
            && (Attempt(q, PromoteOp(ref, other, later)).Some? <==> other == token && later < now + leaseMs)
            && (Attempt(q, ClaimOp(other, leaseMs, later)).Some? <==> later >= now + leaseMs)
            && (Attempt(q, EvaluationOp(e, d, later)).Some? <==> later >= now + leaseMs)
            && Attempt(q, ApproveOp("", later)).None? && Attempt(q, RollBackOp(ref, later)).None?
  {
  }

  /**
   * The way to a promotion: a favourable decision, an approval where it asks
   * for one, a claim, and the mark within the lease; and from there the way
   * back. Each call is accepted, and the proposal ends with the version of the
   * mark, its decision and its approver.
   */
  lemma WayToPromotion(p: Proposal, e: Gate.Evaluation, d: Gate.Decision, approver: string, token: nat, leaseMs: int,
                       ref: nat, back: nat, at: int, later: int)
    requires OpenAt(p, at) && (d.Promote? || d.RequiresApproval?) && later < at + leaseMs
    ensures var decide := [EvaluationOp(e, d, at)] + if d.RequiresApproval? then [ApproveOp(approver, at)] else [];
            var promoted := Run(p, decide + [ClaimOp(token, leaseMs, at), PromoteOp(ref, token, later)]);
            && promoted.status.Promoted? && promoted.promotedVersionRef == Some(ref) && promoted.decision == Some(d)
            && promoted.evaluation == Some(e) && promoted.promotionClaim.None? && SameProposal(p, promoted)
            && (d.RequiresApproval? ==>
                  promoted.humanApprovedBy == Some(approver) && promoted.humanApprovedAt == Some(at))
            && (d.Promote? ==> promoted.humanApprovedBy == p.humanApprovedBy)
            && var undone := Next(promoted, RollBackOp(back, later));
               && undone.status.RolledBack? && undone.rollbackVersionRef == Some(back)
               && undone.promotedVersionRef == Some(ref) && SameProposal(p, undone)
  {
    var decide := [EvaluationOp(e, d, at)] + if d.RequiresApproval? then [ApproveOp(approver, at)] else [];
    var q := Next(p, EvaluationOp(e, d, at));
    RunOf1(p, EvaluationOp(e, d, at));
    if d.RequiresApproval? {
      RunSnoc(p, [EvaluationOp(e, d, at)], ApproveOp(approver, at));
      assert decide == [EvaluationOp(e, d, at)] + [ApproveOp(approver, at)];
    } else {
      assert decide == [EvaluationOp(e, d, at)];
    }
    RunSnoc(p, decide, ClaimOp(token, leaseMs, at));
    RunSnoc(p, decide + [ClaimOp(token, leaseMs, at)], PromoteOp(ref, token, later));
    assert decide + [ClaimOp(token, leaseMs, at)] + [PromoteOp(ref, token, later)]
        == decide + [ClaimOp(token, leaseMs, at), PromoteOp(ref, token, later)];
  }

  lemma RunOf1(p: Proposal, op: Op)
    ensures Run(p, [op]) == Next(p, op)
  {
    assert [op][..0] == [];
  }

  lemma RunSnoc(p: Proposal, ops: seq<Op>, op: Op)
    ensures Run(p, ops + [op]) == Next(Run(p, ops), op)
  {
    assert (ops + [op])[..|ops|] == ops;
  }

  // ── The SQL form of the lease ────────────────────────────────────────────

  /** The row keeps the lease in two nullable columns. */
  datatype LeaseColumns = LeaseColumns(token: Option<nat>, expiresAt: Option<int>)

  /** `hasActivePromotionClaim` on the columns. */
  predicate ActiveColumns(l: LeaseColumns, now: int) {
    l.token.Some? && l.expiresAt.Some? && l.expiresAt.value > now
  }

  /** `WHERE token IS NULL OR expires_at <= now`; a comparison with NULL is not true. */
  predicate SqlFree(l: LeaseColumns, now: int) {
    l.token.None? || (l.expiresAt.Some? && l.expiresAt.value <= now)
  }

  function Columns(p: Proposal): LeaseColumns {
    match p.promotionClaim
    case None => LeaseColumns(None, None)
    case Some(c) => LeaseColumns(Some(c.token), Some(c.expiresAt))
  }

  /**
   * SQL and in-memory guards agree on a row exactly when a token never stands
   * without an expiry, as in every stored proposal.
   */
  lemma SqlLeaseGuardAgrees(l: LeaseColumns, p: Proposal, now: int)
    ensures (SqlFree(l, now) <==> !ActiveColumns(l, now)) <==> !(l.token.Some? && l.expiresAt.None?)
    ensures SqlFree(Columns(p), now) <==> !HasActiveClaim(p, now)
  {
  }
}
