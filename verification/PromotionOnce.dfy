/**
 * At most one playbook version per critique, over every run of the learning
 * protocol in which claimants create before their lease expires and every
 * delivery of a critique says the same. `create` is not fenced, so both
 * conditions are needed; `PromotionBounds` says exactly when they can be met.
 */
module PromotionOnce {
  import opened Text
  import opened LearningProposals
  import opened LearningProtocol
  import Gate = PromotionGate

  /** What every message about a critique says. */
  type Kinds = nat -> Delivery

  // ── The conditions on a run ──────────────────────────────────────────────

  /** A claimant creates its version before its lease expires. */
  predicate Timely(s: Sys, l: Label) {
    l.CreateVersion? && PcOf(s, l.w).NoneFound? ==> s.now < PcOf(s, l.w).claim.expiresAt
  }

  /** Every delivery of a critique names the same playbook type and spells its id alike. */
  predicate SameKind(l: Label, kinds: Kinds) {
    l.ReadEvidence? ==> l.delivery == kinds(l.critique)
  }

  predicate Disciplined(s: Sys, labels: seq<Label>, policy: Gate.Policy, kinds: Kinds)
    decreases |labels|
  {
    labels != [] ==>
      && Timely(s, labels[0]) && SameKind(labels[0], kinds)
      && Disciplined(Do(s, labels[0], policy), labels[1..], policy, kinds)
  }

  // ── The invariant ────────────────────────────────────────────────────────

  predicate GoodProposal(c: nat, p: Proposal, versions: seq<Version>, updated: map<UpdateKey, nat>, nextToken: nat) {
    match p.promotedVersionRef
    case Some(v) =>
      && p.status in {Promoted, RolledBack} && p.promotionClaim.None?
      && CreatedBy(versions, c, v) && EventOf(versions[v]) in updated
    case None =>
      && p.status !in {Promoted, RolledBack}
      && (p.promotionClaim.Some? ==> p.status.Approved? && p.promotionClaim.value.token < nextToken)
  }

  function ClaimOf(pc: Pc): Option<Claim> {
    match pc
    case Claimed(_, _, claim) => Some(claim)
    case NoneFound(_, _, claim) => Some(claim)
    case HasVersion(_, _, claim, _) => Some(claim)
    case Emitted(_, _, claim, _) => Some(claim)
    case _ => None
  }

  /** The stored lease is this one. */
  predicate Leased(proposals: map<nat, Proposal>, c: nat, claim: Claim) {
    c in proposals && proposals[c].promotionClaim == Some(claim)
  }

  ghost predicate NoVersionBy(versions: seq<Version>, c: nat) {
    forall i | 0 <= i < |versions| :: versions[i].critique != c
  }

  ghost predicate GoodPc(pc: Pc, s: Sys, kinds: Kinds) {
    match pc
    case Idle => true
    case EvidenceRead(c, d, _) => d == kinds(c)
    case Eligible(c, d) => d == kinds(c)
    case Claimed(c, d, claim) =>
      d == kinds(c) && claim.token < s.nextToken && (s.now < claim.expiresAt ==> Leased(s.proposals, c, claim))
    case NoneFound(c, d, claim) =>
      && d == kinds(c) && claim.token < s.nextToken
      && (s.now < claim.expiresAt ==> Leased(s.proposals, c, claim) && NoVersionBy(s.versions, c))
    case HasVersion(c, d, claim, v) => claim.token < s.nextToken && IsVersion(s.versions, v, c, d)
    case Emitted(c, d, claim, v) =>
      claim.token < s.nextToken && IsVersion(s.versions, v, c, d) && UpdateKey(c, d.creator) in s.updated
  }

  ghost predicate GoodVersions(versions: seq<Version>, kinds: Kinds) {
    && (forall i | 0 <= i < |versions| :: versions[i].delivery == kinds(versions[i].critique))
    && (forall i, j | 0 <= i < j < |versions| :: versions[i].critique != versions[j].critique)
  }

  ghost predicate GoodProposals(s: Sys) {
    forall c {:trigger c in s.proposals} | c in s.proposals ::
      GoodProposal(c, s.proposals[c], s.versions, s.updated, s.nextToken)
  }

  ghost predicate GoodUpdates(updated: map<UpdateKey, nat>, versions: seq<Version>) {
    forall k {:trigger k in updated} | k in updated :: NamesVersion(versions, k, updated[k])
  }

  ghost predicate GoodPcs(s: Sys, kinds: Kinds) {
    forall w {:trigger w in s.workers} | w in s.workers :: GoodPc(s.workers[w], s, kinds)
  }

  ghost predicate DistinctTokens(workers: map<nat, Pc>) {
    forall v, w {:trigger v in workers, w in workers} | v in workers && w in workers && v != w
      && ClaimOf(workers[v]).Some? && ClaimOf(workers[w]).Some? ::
      ClaimOf(workers[v]).value.token != ClaimOf(workers[w]).value.token
  }

  ghost predicate Inv(s: Sys, kinds: Kinds) {
    match s
    case Sys(_, versions, updated, _, _, workers) =>
      && GoodProposals(s) && GoodVersions(versions, kinds) && GoodUpdates(updated, versions)
      && GoodPcs(s, kinds) && DistinctTokens(workers)
  }

  // ── Preservation ─────────────────────────────────────────────────────────

  /** A worker may move on keeping its claim, or drop it, or take a fresh one. */
  lemma GotoKeepsInv(s: Sys, w: nat, pc: Pc, kinds: Kinds)
    requires Inv(s, kinds) && GoodPc(pc, s, kinds)
    requires ClaimOf(pc).Some? ==>
               || ClaimOf(PcOf(s, w)) == ClaimOf(pc)
               || forall v {:trigger v in s.workers} | v in s.workers && v != w && ClaimOf(s.workers[v]).Some? ::
                    ClaimOf(s.workers[v]).value.token != ClaimOf(pc).value.token
    ensures Inv(Goto(s, w, pc), kinds)
  {
    var s' := Goto(s, w, pc);
    forall v | v in s'.workers
      ensures GoodPc(s'.workers[v], s', kinds)
    {
      if v != w {
        assert v in s.workers && GoodPc(s.workers[v], s, kinds);
      }
    }
    assert forall v {:trigger v in s'.workers} | v in s'.workers && v != w :: v in s.workers;
    assert GoodProposals(s');
  }

  /** Replacing a proposal whose lease is not live, or keeping its lease, disturbs nobody. */
  lemma SaveKeepsInv(s: Sys, c: nat, p: Proposal, kinds: Kinds)
    requires Inv(s, kinds) && GoodProposal(c, p, s.versions, s.updated, s.nextToken)
    requires c in s.proposals ==>
               !HasActiveClaim(s.proposals[c], s.now) || p.promotionClaim == s.proposals[c].promotionClaim
    ensures Inv(Save(s, c, p), kinds)
  {
    var s' := Save(s, c, p);
    forall w | w in s'.workers
      ensures GoodPc(s'.workers[w], s', kinds)
    {
      assert GoodPc(s.workers[w], s, kinds);
    }
    forall d | d in s'.proposals
      ensures GoodProposal(d, s'.proposals[d], s'.versions, s'.updated, s'.nextToken)
    {
      assert d != c ==> d in s.proposals;
    }
  }

  lemma RecordKeepsInv(s: Sys, w: nat, policy: Gate.Policy, kinds: Kinds)
    requires Inv(s, kinds)
    ensures Inv(RecordStep(s, w, policy), kinds)
  {
    if PcOf(s, w).EvidenceRead? && PcOf(s, w).critique in s.proposals {
      var EvidenceRead(c, d, e) := PcOf(s, w);
      assert GoodPc(s.workers[w], s, kinds);
      assert GoodProposal(c, s.proposals[c], s.versions, s.updated, s.nextToken);
      var done := Decided(s.proposals[c], e, policy, s.now);
      if done.Some? {
        SaveKeepsInv(s, c, done.value, kinds);
        GotoKeepsInv(Save(s, c, done.value), w, if done.value.status.Approved? then Eligible(c, d) else Idle, kinds);
      } else {
        GotoKeepsInv(s, w, Idle, kinds);
      }
    }
  }

  lemma TokenIsFresh(s: Sys, kinds: Kinds)
    requires Inv(s, kinds)
    ensures forall v | v in s.workers && ClaimOf(s.workers[v]).Some? ::
              ClaimOf(s.workers[v]).value.token != s.nextToken
  {
    forall v | v in s.workers && ClaimOf(s.workers[v]).Some?
      ensures ClaimOf(s.workers[v]).value.token != s.nextToken
    {
      assert GoodPc(s.workers[v], s, kinds);
    }
  }

  lemma ClaimKeepsInv(s: Sys, w: nat, leaseMs: int, kinds: Kinds)
    requires Inv(s, kinds)
    ensures Inv(ClaimStep(s, w, leaseMs), kinds)
  {
    if PcOf(s, w).Eligible? && PcOf(s, w).critique in s.proposals {
      var Eligible(c, d) := PcOf(s, w);
      assert GoodPc(s.workers[w], s, kinds);
      assert GoodProposal(c, s.proposals[c], s.versions, s.updated, s.nextToken);
      if ClaimPromotion(s.proposals[c], s.nextToken, leaseMs, s.now).Some? {
        GrantKeepsInv(s, w, leaseMs, kinds);
      } else {
        GotoKeepsInv(s, w, Idle, kinds);
      }
    }
  }

  lemma GrantKeepsInv(s: Sys, w: nat, leaseMs: int, kinds: Kinds)
    requires Inv(s, kinds) && PcOf(s, w).Eligible? && PcOf(s, w).critique in s.proposals
    requires GoodPc(s.workers[w], s, kinds)
    requires GoodProposal(PcOf(s, w).critique, s.proposals[PcOf(s, w).critique], s.versions, s.updated, s.nextToken)
    requires ClaimPromotion(s.proposals[PcOf(s, w).critique], s.nextToken, leaseMs, s.now).Some?
    ensures Inv(ClaimStep(s, w, leaseMs), kinds)
  {
    var Eligible(c, d) := PcOf(s, w);
    var p := ClaimPromotion(s.proposals[c], s.nextToken, leaseMs, s.now).value;
    var drawn := s.(nextToken := s.nextToken + 1);
    DrawKeepsInv(s, kinds);
    SaveKeepsInv(drawn, c, p, kinds);
    var saved := Save(drawn, c, p);
    TokenIsFresh(s, kinds);
    var claimed := Claimed(c, d, Claim(s.nextToken, s.now + leaseMs));
    GotoKeepsInv(saved, w, claimed, kinds);
    assert ClaimStep(s, w, leaseMs) == Goto(saved, w, claimed);
  }

  lemma DrawKeepsInv(s: Sys, kinds: Kinds)
    requires Inv(s, kinds)
    ensures Inv(s.(nextToken := s.nextToken + 1), kinds)
  {
    var s' := s.(nextToken := s.nextToken + 1);
    forall w | w in s'.workers
      ensures GoodPc(s'.workers[w], s', kinds)
    {
      assert GoodPc(s.workers[w], s, kinds);
    }
    forall c | c in s'.proposals
      ensures GoodProposal(c, s'.proposals[c], s'.versions, s'.updated, s'.nextToken)
    {
      assert GoodProposal(c, s.proposals[c], s.versions, s.updated, s.nextToken);
    }
  }

  lemma TickKeepsInv(s: Sys, elapsed: nat, kinds: Kinds)
    requires Inv(s, kinds)
    ensures Inv(s.(now := s.now + elapsed), kinds)
  {
    var s' := s.(now := s.now + elapsed);
    forall w | w in s'.workers
      ensures GoodPc(s'.workers[w], s', kinds)
    {
      assert GoodPc(s.workers[w], s, kinds);
    }
    assert GoodProposals(s');
  }

  lemma ListKeepsInv(s: Sys, w: nat, kinds: Kinds)
    requires Inv(s, kinds)
    ensures Inv(ListStep(s, w), kinds)
  {
    if PcOf(s, w).Claimed? {
      var Claimed(c, d, claim) := PcOf(s, w);
      assert GoodPc(s.workers[w], s, kinds);
      var i := FindVersion(s.versions, c, d);
      if i < |s.versions| {
        GotoKeepsInv(s, w, HasVersion(c, d, claim, i), kinds);
      } else {
        forall j | 0 <= j < |s.versions|
          ensures s.versions[j].critique != c
        {
          assert s.versions[j] != Version(c, d) && s.versions[j].delivery == kinds(s.versions[j].critique);
        }
        GotoKeepsInv(s, w, NoneFound(c, d, claim), kinds);
      }
    }
  }

  lemma CreateKeepsInv(s: Sys, w: nat, kinds: Kinds)
    requires Inv(s, kinds) && Timely(s, CreateVersion(w))
    ensures Inv(CreateStep(s, w), kinds)
  {
    if PcOf(s, w).NoneFound? {
      var NoneFound(c, d, claim) := PcOf(s, w);
      assert GoodPc(s.workers[w], s, kinds);
      var n := |s.versions|;
      var s1 := Goto(s, w, Idle);
      GotoKeepsInv(s, w, Idle, kinds);
      var s2 := s1.(versions := s.versions + [Version(c, d)]);
      forall v | v in s2.workers
        ensures GoodPc(s2.workers[v], s2, kinds)
      {
        if v != w {
          assert v in s.workers && w in s.workers && GoodPc(s.workers[v], s, kinds);
        }
      }
      forall p | p in s2.proposals
        ensures GoodProposal(p, s2.proposals[p], s2.versions, s2.updated, s2.nextToken)
      {
        assert GoodProposal(p, s.proposals[p], s.versions, s.updated, s.nextToken);
      }
      assert GoodUpdates(s2.updated, s2.versions) by {
        assert forall k {:trigger k in s.updated} | k in s.updated :: NamesVersion(s.versions, k, s.updated[k]);
      }
      assert Inv(s2, kinds);
      forall v | v in s2.workers && v != w && ClaimOf(s2.workers[v]).Some?
        ensures ClaimOf(s2.workers[v]).value.token != claim.token
      {
        assert v in s.workers && w in s.workers;
      }
      GotoKeepsInv(s2, w, HasVersion(c, d, claim, n), kinds);
      assert s1.workers[w := HasVersion(c, d, claim, n)] == s.workers[w := HasVersion(c, d, claim, n)];
    }
  }

  lemma EmitKeepsInv(s: Sys, w: nat, kinds: Kinds)
    requires Inv(s, kinds)
    ensures Inv(EmitStep(s, w), kinds)
  {
    if PcOf(s, w).HasVersion? {
      var HasVersion(c, d, claim, v) := PcOf(s, w);
      assert GoodPc(s.workers[w], s, kinds);
      var s1 := s.(updated := WithUpdate(s.updated, UpdateKey(c, d.creator), v));
      forall u | u in s1.workers
        ensures GoodPc(s1.workers[u], s1, kinds)
      {
        assert GoodPc(s.workers[u], s, kinds);
      }
      forall p | p in s1.proposals
        ensures GoodProposal(p, s1.proposals[p], s1.versions, s1.updated, s1.nextToken)
      {
        assert GoodProposal(p, s.proposals[p], s.versions, s.updated, s.nextToken);
      }
      assert Inv(s1, kinds);
      GotoKeepsInv(s1, w, Emitted(c, d, claim, v), kinds);
    }
  }

  lemma MarkKeepsInv(s: Sys, w: nat, kinds: Kinds)
    requires Inv(s, kinds)
    ensures Inv(MarkStep(s, w), kinds)
  {
    if PcOf(s, w).Emitted? && PcOf(s, w).critique in s.proposals {
      var Emitted(c, d, claim, v) := PcOf(s, w);
      assert GoodPc(s.workers[w], s, kinds);
      assert GoodProposal(c, s.proposals[c], s.versions, s.updated, s.nextToken);
      var done := MarkPromoted(s.proposals[c], v, claim.token, s.now);
      GotoKeepsInv(s, w, Idle, kinds);
      if done.Some? {
        var s1 := Goto(s, w, Idle);
        var s2 := Save(s1, c, done.value);
        forall u | u in s2.workers
          ensures GoodPc(s2.workers[u], s2, kinds)
        {
          assert GoodPc(s1.workers[u], s1, kinds);
          if u != w {
            assert u in s.workers && w in s.workers;
          }
        }
        forall p | p in s2.proposals
          ensures GoodProposal(p, s2.proposals[p], s2.versions, s2.updated, s2.nextToken)
        {
          assert p != c ==> p in s.proposals;
        }
      }
    }
  }

  lemma RollBackKeepsInv(s: Sys, c: nat, v: nat, kinds: Kinds)
    requires Inv(s, kinds)
    ensures Inv(RollBackStep(s, c, v), kinds)
  {
    if c in s.proposals && MarkRolledBack(s.proposals[c], v, s.now).Some? {
      assert GoodProposal(c, s.proposals[c], s.versions, s.updated, s.nextToken);
      SaveKeepsInv(s, c, MarkRolledBack(s.proposals[c], v, s.now).value, kinds);
    }
  }

  lemma ApproveKeepsInv(s: Sys, c: nat, approver: string, kinds: Kinds)
    requires Inv(s, kinds)
    ensures Inv(ApproveStep(s, c, approver), kinds)
  {
    if c in s.proposals && Approve(s.proposals[c], approver, s.now).Some? {
      assert GoodProposal(c, s.proposals[c], s.versions, s.updated, s.nextToken);
      SaveKeepsInv(s, c, Approve(s.proposals[c], approver, s.now).value, kinds);
    }
  }

  lemma DoKeepsInv(s: Sys, l: Label, policy: Gate.Policy, kinds: Kinds)
    requires Inv(s, kinds) && Timely(s, l) && SameKind(l, kinds)
    ensures Inv(Do(s, l, policy), kinds)
  {
    match l
    case Propose(c, tenantId, key, risk) =>
      if c !in s.proposals {
        SaveKeepsInv(s, c, NewProposal(c, tenantId, key, risk, s.now), kinds);
      }
    case ReadEvidence(w, c, d, e) =>
      if ReadStep(s, w, c, d, e) != s {
        GotoKeepsInv(s, w, EvidenceRead(c, d, e), kinds);
      }
    case RecordDecision(w) => RecordKeepsInv(s, w, policy, kinds);
    case HumanApproves(c, approver) => ApproveKeepsInv(s, c, approver, kinds);
    case TakeClaim(w, leaseMs) => ClaimKeepsInv(s, w, leaseMs, kinds);
    case ListVersions(w) => ListKeepsInv(s, w, kinds);
    case CreateVersion(w) => CreateKeepsInv(s, w, kinds);
    case EmitUpdate(w) => EmitKeepsInv(s, w, kinds);
    case Mark(w) => MarkKeepsInv(s, w, kinds);
    case RollBack(c, v) => RollBackKeepsInv(s, c, v, kinds);
    case Tick(elapsed) => TickKeepsInv(s, elapsed, kinds);
    case Crash(w) => GotoKeepsInv(s, w, Idle, kinds);
  }

  lemma {:induction false} RunKeepsInv(s: Sys, labels: seq<Label>, policy: Gate.Policy, kinds: Kinds)
    requires Inv(s, kinds) && Disciplined(s, labels, policy, kinds)
    ensures Inv(RunAll(s, labels, policy), kinds)
    decreases |labels|
  {
    if labels != [] {
      DoKeepsInv(s, labels[0], policy, kinds);
      RunKeepsInv(Do(s, labels[0], policy), labels[1..], policy, kinds);
    }
  }

  // ── Main result ──────────────────────────────────────────────────────────

  /**
   * In every disciplined run of any number of workers, a critique has at most
   * one playbook version; its update event names that version; and a proposal
   * marked promoted names it too, with the event already in the outbox.
   */
  lemma OneVersionPerCritique(labels: seq<Label>, policy: Gate.Policy, kinds: Kinds, c: nat)
    requires Disciplined(Start, labels, policy, kinds)
    ensures OneVersionFor(RunAll(Start, labels, policy), kinds, c)
  {
    RunKeepsInv(Start, labels, policy, kinds);
    InvMeansOneVersion(RunAll(Start, labels, policy), kinds, c);
  }

  /** One version, named by the update event and by the promoted reference. */
  ghost predicate OneVersionFor(s: Sys, kinds: Kinds, c: nat) {
    var k := UpdateKey(c, kinds(c).creator);
    && (forall i, j | CreatedBy(s.versions, c, i) && CreatedBy(s.versions, c, j) :: i == j)
    && (k in s.updated ==> CreatedBy(s.versions, c, s.updated[k]))
    && (forall l | l in s.updated && l.critique == c :: l == k)
    && (c in s.proposals && s.proposals[c].promotedVersionRef.Some? ==>
          k in s.updated && s.proposals[c].promotedVersionRef == Some(s.updated[k]))
    && (c in s.proposals && s.proposals[c].status in {Promoted, RolledBack} ==>
          s.proposals[c].promotedVersionRef.Some?)
  }

  lemma InvMeansOneVersion(s: Sys, kinds: Kinds, c: nat)
    requires Inv(s, kinds)
    ensures OneVersionFor(s, kinds, c)
  {
    forall l | l in s.updated && l.critique == c
      ensures l == UpdateKey(c, kinds(c).creator)
    {
      assert NamesVersion(s.versions, l, s.updated[l]);
    }
    if c in s.proposals {
      assert GoodProposal(c, s.proposals[c], s.versions, s.updated, s.nextToken);
    }
  }
}
