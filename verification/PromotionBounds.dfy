/**
 * Exactly when "one playbook version per critique" holds, over what is
 * delivered and how late a `create` may be: in every run when no critique is
 * delivered in two ways and creates come within the lease, and otherwise not.
 */
module PromotionBounds {
  import opened Text
  import opened LearningProposals
  import opened LearningProtocol
  import opened PromotionOnce
  import Gate = PromotionGate
  import Outbox
  import Playbooks = PlaybookVersions
  import Steps

  // ── What is fed to the workers ───────────────────────────────────────────

  /**
   * The tenant, the key each critique's proposal is stored under, what
   * messages about it may say, and the time within which a claimant creates.
   */
  datatype Feed = Feed(tenantId: string, keys: nat -> string, offers: nat -> set<Delivery>, delay: nat)

  ghost predicate ValidFeed(f: Feed) {
    && Outbox.IsUuid(f.tenantId)
    && (forall c: nat :: IsCritiqueKey(f.keys(c)) && Trim(f.keys(c)) == f.keys(c))
    && (forall c: nat, d | d in f.offers(c) :: Spells(d.creator, f.keys(c)))
  }

  /** One proposal can be delivered in two ways by white space alone: its key is trimmed, the message's id is not. */
  lemma TwoSpellings(key: string)
    requires IsCritiqueKey(key) && Trim(key) == key
    ensures Spells(key, key) && Spells(key + [' '], key) && key + [' '] != key
  {
    var longer := key + [' '];
    assert longer[0] == key[0] == 'c' && longer[..|CRITIQUE|] == key[..|CRITIQUE|];
    assert longer[..|key|] == key;
  }

  /** Steps as the feed allows them, with proposals as validation lets them through and the default lease. */
  predicate Permitted(s: Sys, l: Label, f: Feed) {
    match l
    case Propose(c, tenantId, key, _) =>
      Outbox.IsUuid(tenantId) && IsCritiqueKey(key) && Trim(key) == key && tenantId == f.tenantId && key == f.keys(c)
    case ReadEvidence(_, c, d, _) =>
      d in f.offers(c) && (c in s.proposals ==> Spells(d.creator, s.proposals[c].proposalKey))
    case TakeClaim(_, leaseMs) => leaseMs == LEASE_MS
    case CreateVersion(w) =>
      PcOf(s, w).NoneFound? ==> s.now < PcOf(s, w).claim.expiresAt - LEASE_MS + f.delay
    case _ => true
  }

  predicate Fed(s: Sys, labels: seq<Label>, f: Feed, policy: Gate.Policy)
    decreases |labels|
  {
    labels != [] ==> Permitted(s, labels[0], f) && Fed(Do(s, labels[0], policy), labels[1..], f, policy)
  }

  lemma {:induction false} FedAppend(s: Sys, first: seq<Label>, second: seq<Label>, f: Feed, policy: Gate.Policy)
    requires Fed(s, first, f, policy) && Fed(RunAll(s, first, policy), second, f, policy)
    ensures Fed(s, first + second, f, policy)
    decreases |first|
  {
    if first == [] {
      assert first + second == second;
    } else {
      assert (first + second)[1..] == first[1..] + second;
      FedAppend(Do(s, first[0], policy), first[1..], second, f, policy);
    }
  }

  /** A more generous feed allows more runs. */
  lemma {:induction false} FedMore(s: Sys, labels: seq<Label>, f: Feed, g: Feed, policy: Gate.Policy)
    requires Fed(s, labels, f, policy) && g == f.(offers := g.offers, delay := g.delay) && f.delay <= g.delay
    requires forall c: nat :: f.offers(c) <= g.offers(c)
    ensures Fed(s, labels, g, policy)
    decreases |labels|
  {
    if labels != [] {
      FedMore(Do(s, labels[0], policy), labels[1..], f, g, policy);
    }
  }

  // ── Two conditions suffice ───────────────────────────────────────────────

  /** Messages about the critique all say the same. */
  predicate OneOffer(offers: set<Delivery>) {
    forall d, e | d in offers && e in offers :: d == e
  }

  ghost function TheOffer(offers: set<Delivery>): (d: Delivery)
    ensures OneOffer(offers) ==> forall e | e in offers :: e == d
  {
    if offers == {} then Delivery(Playbooks.Custom, "") else var d :| d in offers; d
  }

  /** What a feed says about each critique, when it says one thing. */
  ghost function Said(f: Feed): Kinds {
    (c: nat) => TheOffer(f.offers(c))
  }

  lemma {:induction false} FedIsDisciplined(s: Sys, labels: seq<Label>, f: Feed, policy: Gate.Policy)
    requires Fed(s, labels, f, policy) && f.delay <= LEASE_MS && forall c: nat :: OneOffer(f.offers(c))
    ensures Disciplined(s, labels, policy, Said(f))
    decreases |labels|
  {
    if labels != [] {
      FedIsDisciplined(Do(s, labels[0], policy), labels[1..], f, policy);
    }
  }

  /** Nobody got as far as a version. */
  ghost predicate AllIdle(s: Sys) {
    s.versions == [] && forall w {:trigger w in s.workers} | w in s.workers :: s.workers[w].Idle?
  }

  lemma {:induction false} NothingOffered(s: Sys, labels: seq<Label>, f: Feed, policy: Gate.Policy)
    requires Fed(s, labels, f, policy) && AllIdle(s) && forall c: nat :: f.offers(c) == {}
    ensures AllIdle(RunAll(s, labels, policy))
    decreases |labels|
  {
    if labels != [] {
      NothingOffered(Do(s, labels[0], policy), labels[1..], f, policy);
    }
  }

  // ── Each is needed ───────────────────────────────────────────────────────

  /** Evidence for a low-risk change that the policy promotes without a human. */
  predicate Convincing(e: Gate.Evaluation, policy: Gate.Policy) {
    e.risk.Low? && !e.humanApproved && Gate.Evaluate(e, policy) == Some(Gate.Promote)
  }

  const STRONG := Gate.Evaluation(Gate.Low, 100, 50, 1.0, Gate.Increase, 1.0, 2.0, 0.0, false)

  /** The default policy promotes some evidence. */
  lemma DefaultPolicyPromotes()
    ensures Convincing(STRONG, Gate.DEFAULT_POLICY)
  {
    assert Gate.RelativeLift(STRONG) == 1.0;
  }

  /** One critique and the convincing evidence for it. */
  datatype Setting = Setting(feed: Feed, critique: nat, evidence: Gate.Evaluation, policy: Gate.Policy)

  ghost predicate ValidSetting(x: Setting) {
    match x
    case Setting(f, _, e, policy) => ValidFeed(f) && f.delay > 0 && Convincing(e, policy)
  }

  /** Permitted steps lead from one state to the other. */
  ghost predicate Leads(s: Sys, labels: seq<Label>, s': Sys, x: Setting) {
    RunAll(s, labels, x.policy) == s' && Fed(s, labels, x.feed, x.policy)
  }

  lemma LeadsOne(s: Sys, l: Label, x: Setting)
    requires Permitted(s, l, x.feed)
    ensures Leads(s, [l], Do(s, l, x.policy), x)
  {
    Steps.Single(s, l, Under(x.policy));
    assert [l][1..] == [];
  }

  lemma LeadsOn(s: Sys, first: seq<Label>, s1: Sys, second: seq<Label>, s2: Sys, x: Setting)
    requires Leads(s, first, s1, x) && Leads(s1, second, s2, x)
    ensures Leads(s, first + second, s2, x)
  {
    Steps.Append(s, first, second, Under(x.policy));
    FedAppend(s, first, second, x.feed, x.policy);
  }

  lemma LeadsTwo(s: Sys, k: Label, l: Label, x: Setting)
    requires Permitted(s, k, x.feed) && Permitted(Do(s, k, x.policy), l, x.feed)
    ensures Leads(s, [k, l], Do(Do(s, k, x.policy), l, x.policy), x)
  {
    LeadsOne(s, k, x);
    LeadsOne(Do(s, k, x.policy), l, x);
    LeadsOn(s, [k], Do(s, k, x.policy), [l], Do(Do(s, k, x.policy), l, x.policy), x);
    assert [k] + [l] == [k, l];
  }

  /** A low-risk proposal for the critique that anyone can claim at this time. */
  predicate Open(p: Proposal, x: Setting, now: int) {
    && p.risk.Low? && p.humanApprovedAt.None? && p.proposalKey == x.feed.keys(x.critique)
    && p.status in {AwaitingEvidence, Approved} && !HasActiveClaim(p, now)
  }

  predicate OpenAt(s: Sys, x: Setting, now: int) {
    x.critique in s.proposals && Open(s.proposals[x.critique], x, now)
  }

  lemma Evaluated(s: Sys, x: Setting, w: nat, d: Delivery) returns (labels: seq<Label>, s': Sys)
    requires ValidSetting(x) && OpenAt(s, x, s.now) && PcOf(s, w).Idle? && d in x.feed.offers(x.critique)
    ensures Leads(s, labels, s', x)
    ensures OpenAt(s', x, s.now) && s'.proposals[x.critique].status.Approved? && s'.now == s.now
    ensures s'.versions == s.versions && s'.workers == s.workers[w := Eligible(x.critique, d)]
  {
    var k, l := ReadEvidence(w, x.critique, d, x.evidence), RecordDecision(w);
    var s1 := ReadStep(s, w, x.critique, d, x.evidence);
    assert s1 == Goto(s, w, EvidenceRead(x.critique, d, x.evidence));
    LeadsTwo(s, k, l, x);
    labels, s' := [k, l], RecordStep(s1, w, x.policy);
  }

  function AtCreate(s: Sys, c: nat, d: Delivery, claim: Claim): Pc {
    var i := FindVersion(s.versions, c, d);
    if i < |s.versions| then HasVersion(c, d, claim, i) else NoneFound(c, d, claim)
  }

  lemma Listed(s: Sys, x: Setting, w: nat, d: Delivery) returns (labels: seq<Label>, s': Sys)
    requires OpenAt(s, x, s.now) && s.proposals[x.critique].status.Approved? && PcOf(s, w) == Eligible(x.critique, d)
    ensures Leads(s, labels, s', x)
    ensures OpenAt(s', x, s.now + LEASE_MS) && s'.now == s.now && s'.versions == s.versions
    ensures s'.workers == s.workers[w := AtCreate(s, x.critique, d, Claim(s.nextToken, s.now + LEASE_MS))]
  {
    var k, l := TakeClaim(w, LEASE_MS), ListVersions(w);
    var s1 := ClaimStep(s, w, LEASE_MS);
    assert s1.workers == s.workers[w := Claimed(x.critique, d, Claim(s.nextToken, s.now + LEASE_MS))];
    LeadsTwo(s, k, l, x);
    labels, s' := [k, l], ListStep(s1, w);
  }

  /** One attempt gets to the create, or to the version that is there, and leaves the proposal open after its lease. */
  lemma Attempted(s: Sys, x: Setting, w: nat, d: Delivery)
    returns (labels: seq<Label>, s': Sys, claim: Claim)
    requires ValidSetting(x) && OpenAt(s, x, s.now) && PcOf(s, w).Idle? && d in x.feed.offers(x.critique)
    ensures Leads(s, labels, s', x) && claim.expiresAt == s.now + LEASE_MS
    ensures OpenAt(s', x, s.now + LEASE_MS) && s'.now == s.now && s'.versions == s.versions
    ensures s'.workers == s.workers[w := AtCreate(s, x.critique, d, claim)]
  {
    var first, s1 := Evaluated(s, x, w, d);
    claim := Claim(s1.nextToken, s1.now + LEASE_MS);
    var second;
    second, s' := Listed(s1, x, w, d);
    LeadsOn(s, first, s1, second, s', x);
    labels := first + second;
  }

  lemma Begin(x: Setting) returns (labels: seq<Label>, s: Sys)
    requires ValidSetting(x)
    ensures Leads(Start, labels, s, x) && OpenAt(s, x, s.now) && s.versions == [] && s.workers == map[]
  {
    var l := Propose(x.critique, x.feed.tenantId, x.feed.keys(x.critique), Gate.Low);
    LeadsOne(Start, l, x);
    labels, s := [l], Do(Start, l, x.policy);
  }

  /** The claimant that found nothing creates, when it is not later than the feed allows. */
  lemma Creates(s: Sys, x: Setting, w: nat, d: Delivery, claim: Claim) returns (s': Sys)
    requires PcOf(s, w) == NoneFound(x.critique, d, claim) && s.now < claim.expiresAt - LEASE_MS + x.feed.delay
    ensures Leads(s, [CreateVersion(w)], s', x) && s'.versions == s.versions + [Version(x.critique, d)]
    ensures s'.proposals == s.proposals && s'.now == s.now
    ensures forall v | v != w :: PcOf(s', v) == PcOf(s, v)
  {
    LeadsOne(s, CreateVersion(w), x);
    s' := CreateStep(s, w);
  }

  lemma Waits(s: Sys, x: Setting) returns (s': Sys)
    ensures Leads(s, [Tick(LEASE_MS)], s', x) && s' == s.(now := s.now + LEASE_MS)
  {
    LeadsOne(s, Tick(LEASE_MS), x);
    s' := s.(now := s.now + LEASE_MS);
  }

  lemma FirstAttempt(x: Setting, v: nat, d: Delivery) returns (labels: seq<Label>, s: Sys, claim: Claim)
    requires ValidSetting(x) && d in x.feed.offers(x.critique)
    ensures Leads(Start, labels, s, x) && OpenAt(s, x, s.now + LEASE_MS) && s.versions == []
    ensures claim.expiresAt == s.now + LEASE_MS && s.workers == map[v := NoneFound(x.critique, d, claim)]
  {
    var first, s0 := Begin(x);
    var second;
    second, s, claim := Attempted(s0, x, v, d);
    LeadsOn(Start, first, s0, second, s, x);
    labels := first + second;
  }

  /** Worker v stalls past its lease and creates after its successor w did: two versions of one delivery. */
  lemma LateCreate(x: Setting, v: nat, w: nat, d: Delivery) returns (labels: seq<Label>, s': Sys)
    requires ValidSetting(x) && d in x.feed.offers(x.critique) && v != w && x.feed.delay > LEASE_MS
    ensures Leads(Start, labels, s', x) && s'.versions == [Version(x.critique, d), Version(x.critique, d)]
  {
    var l1, s1, claim1 := FirstAttempt(x, v, d);
    var s2 := Waits(s1, x);
    var l3, s3, claim3 := Attempted(s2, x, w, d);
    assert PcOf(s3, v) == NoneFound(x.critique, d, claim1);
    var s4 := Creates(s3, x, w, d, claim3);
    var s5 := Creates(s4, x, v, d, claim1);
    LeadsOn(Start, l1, s1, [Tick(LEASE_MS)], s2, x);
    LeadsOn(Start, l1 + [Tick(LEASE_MS)], s2, l3, s3, x);
    LeadsOn(Start, l1 + [Tick(LEASE_MS)] + l3, s3, [CreateVersion(w)], s4, x);
    LeadsOn(Start, l1 + [Tick(LEASE_MS)] + l3 + [CreateVersion(w)], s4, [CreateVersion(v)], s5, x);
    labels, s' := l1 + [Tick(LEASE_MS)] + l3 + [CreateVersion(w)] + [CreateVersion(v)], s5;
  }

  /** Two deliveries that differ; every create comes at the moment of its claim. */
  lemma TwoOffers(x: Setting, v: nat, w: nat, d: Delivery, e: Delivery) returns (labels: seq<Label>, s': Sys)
    requires ValidSetting(x) && {d, e} <= x.feed.offers(x.critique) && d != e && v != w
    ensures Leads(Start, labels, s', x) && s'.versions == [Version(x.critique, d), Version(x.critique, e)]
  {
    var l1, s1, claim1 := FirstAttempt(x, v, d);
    var s2 := Creates(s1, x, v, d, claim1);
    var s3 := Waits(s2, x);
    assert PcOf(s3, w) == PcOf(s1, w) == Idle;
    var l4, s4, claim4 := Attempted(s3, x, w, e);
    var s5 := Creates(s4, x, w, e, claim4);
    LeadsOn(Start, l1, s1, [CreateVersion(v)], s2, x);
    LeadsOn(Start, l1 + [CreateVersion(v)], s2, [Tick(LEASE_MS)], s3, x);
    LeadsOn(Start, l1 + [CreateVersion(v)] + [Tick(LEASE_MS)], s3, l4, s4, x);
    LeadsOn(Start, l1 + [CreateVersion(v)] + [Tick(LEASE_MS)] + l4, s4, [CreateVersion(w)], s5, x);
    labels, s' := l1 + [CreateVersion(v)] + [Tick(LEASE_MS)] + l4 + [CreateVersion(w)], s5;
  }

  // ── Each alone ───────────────────────────────────────────────────────────

  /** The setting with nothing offered but this, and this much time. */
  function Sharp(x: Setting, offers: set<Delivery>, delay: nat): Setting {
    x.(feed := x.feed.(offers := (c: nat) => if c == x.critique then offers else {}, delay := delay))
  }

  lemma SharpIsValid(x: Setting, offers: set<Delivery>, delay: nat)
    requires ValidSetting(x) && offers <= x.feed.offers(x.critique) && delay > 0
    ensures ValidSetting(Sharp(x, offers, delay))
  {
  }

  /**
   * Time alone: with one delivery on offer, and creates no later than the first
   * moment after the lease, a critique can get two versions.
   */
  lemma LateCreateDuplicates(x: Setting, v: nat, w: nat, d: Delivery) returns (labels: seq<Label>, s: Sys)
    requires ValidSetting(x) && d in x.feed.offers(x.critique) && v != w
    ensures Leads(Start, labels, s, Sharp(x, {d}, LEASE_MS + 1))
    ensures s.versions == [Version(x.critique, d), Version(x.critique, d)]
  {
    SharpIsValid(x, {d}, LEASE_MS + 1);
    labels, s := LateCreate(Sharp(x, {d}, LEASE_MS + 1), v, w, d);
  }

  /**
   * Differing deliveries alone: with two of them on offer, and every create in
   * the very moment of its claim, a critique can get two versions.
   */
  lemma TwoOffersDuplicate(x: Setting, v: nat, w: nat, d: Delivery, e: Delivery) returns (labels: seq<Label>, s: Sys)
    requires ValidSetting(x) && {d, e} <= x.feed.offers(x.critique) && d != e && v != w
    ensures Leads(Start, labels, s, Sharp(x, {d, e}, 1))
    ensures s.versions == [Version(x.critique, d), Version(x.critique, e)]
  {
    SharpIsValid(x, {d, e}, 1);
    labels, s := TwoOffers(Sharp(x, {d, e}, 1), v, w, d, e);
  }

  /** What the sharper feed allows the feed allows. */
  lemma SharpLeads(x: Setting, offers: set<Delivery>, delay: nat, labels: seq<Label>, s: Sys)
    requires offers <= x.feed.offers(x.critique) && delay <= x.feed.delay
    requires Leads(Start, labels, s, Sharp(x, offers, delay))
    ensures Leads(Start, labels, s, x)
  {
    FedMore(Start, labels, Sharp(x, offers, delay).feed, x.feed, x.policy);
  }

  // ── Main result ──────────────────────────────────────────────────────────

  predicate NoTwoVersions(versions: seq<Version>) {
    forall i, j | 0 <= i < j < |versions| :: versions[i].critique != versions[j].critique
  }

  /** At most one version per critique, in every run on this feed. */
  ghost predicate AlwaysOneVersion(f: Feed, policy: Gate.Policy) {
    forall labels: seq<Label> | Fed(Start, labels, f, policy) :: NoTwoVersions(RunAll(Start, labels, policy).versions)
  }

  /** No critique is delivered in two ways. */
  ghost predicate OneOfferEach(f: Feed) {
    forall c: nat :: OneOffer(f.offers(c))
  }

  /** Creates come within the lease, or there is nothing to create. */
  ghost predicate InTime(f: Feed) {
    f.delay <= LEASE_MS || forall c: nat :: f.offers(c) == {}
  }

  lemma BothSuffice(f: Feed, policy: Gate.Policy)
    requires OneOfferEach(f) && InTime(f)
    ensures AlwaysOneVersion(f, policy)
  {
    forall labels: seq<Label> | Fed(Start, labels, f, policy)
      ensures NoTwoVersions(RunAll(Start, labels, policy).versions)
    {
      if f.delay <= LEASE_MS {
        FedIsDisciplined(Start, labels, f, policy);
        RunKeepsInv(Start, labels, policy, Said(f));
        assert Inv(RunAll(Start, labels, policy), Said(f));
      } else {
        NothingOffered(Start, labels, f, policy);
      }
    }
  }

  lemma TwoVersionsRefute(x: Setting, labels: seq<Label>, s: Sys)
    requires Leads(Start, labels, s, x) && !NoTwoVersions(s.versions)
    ensures !AlwaysOneVersion(x.feed, x.policy)
  {
  }

  lemma LateRefutes(f: Feed, e: Gate.Evaluation, policy: Gate.Policy)
    requires ValidFeed(f) && f.delay > 0 && Convincing(e, policy) && !InTime(f)
    ensures !AlwaysOneVersion(f, policy)
  {
    var c: nat :| f.offers(c) != {};
    var d :| d in f.offers(c);
    var x := Setting(f, c, e, policy);
    var labels, s := LateCreateDuplicates(x, 0, 1, d);
    SharpLeads(x, {d}, LEASE_MS + 1, labels, s);
    assert s.versions[0].critique == s.versions[1].critique;
    TwoVersionsRefute(x, labels, s);
  }

  lemma TwoOffersRefute(f: Feed, e: Gate.Evaluation, policy: Gate.Policy)
    requires ValidFeed(f) && f.delay > 0 && Convincing(e, policy) && !OneOfferEach(f)
    ensures !AlwaysOneVersion(f, policy)
  {
    var c: nat :| !OneOffer(f.offers(c));
    var d, d' :| d in f.offers(c) && d' in f.offers(c) && d != d';
    var x := Setting(f, c, e, policy);
    var labels, s := TwoOffersDuplicate(x, 0, 1, d, d');
    SharpLeads(x, {d, d'}, 1, labels, s);
    assert s.versions[0].critique == s.versions[1].critique;
    TwoVersionsRefute(x, labels, s);
  }

  /**
   * One version per critique holds in every run on a feed exactly when no
   * critique is delivered in two ways and creates come within the lease, as
   * long as the policy can be convinced at all.
   */
  lemma OneVersionIff(f: Feed, e: Gate.Evaluation, policy: Gate.Policy)
    requires ValidFeed(f) && f.delay > 0 && Convincing(e, policy)
    ensures AlwaysOneVersion(f, policy) <==> OneOfferEach(f) && InTime(f)
  {
    if !OneOfferEach(f) {
      TwoOffersRefute(f, e, policy);
    } else if !InTime(f) {
      LateRefutes(f, e, policy);
    } else {
      BothSuffice(f, policy);
    }
  }
}
