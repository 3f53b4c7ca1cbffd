/**
 * The deterministic promotion gate and the self-healing decision
 * (packages/core/src/adaptive-gtm-harness.ts). Numbers are reals; rounding is
 * not the point of either function.
 */
module PromotionGate {
  import opened Text

  datatype Risk = Low | Medium | High | Critical

  datatype Direction = Increase | Decrease

  datatype Decision = ContinueExperiment | Reject | RequiresApproval | Promote

  datatype Evaluation = Evaluation(
    risk: Risk,
    evidenceCount: nat,
    uniqueEntities: nat,
    confidence: real,
    metricDirection: Direction,
    baselineMetric: real,
    candidateMetric: real,
    worstGuardrailRegression: real,
    humanApproved: bool)

  datatype Policy = Policy(
    minEvidence: nat,
    minUniqueEntities: nat,
    minConfidence: real,
    minRelativeLift: real,
    maxGuardrailRegression: real,
    humanApprovalFor: set<Risk>)

  const DEFAULT_POLICY := Policy(20, 5, 0.8, 0.05, 0.02, {High, Critical})

  function Abs(x: real): real {
    if x < 0.0 then -x else x
  }

  function Denominator(e: Evaluation): (d: real)
    ensures d > 0.0
  {
    if Abs(e.baselineMetric) < 0.000000001 then 0.000000001 else Abs(e.baselineMetric)
  }

  function RelativeLift(e: Evaluation): real {
    (if e.metricDirection.Increase? then e.candidateMetric - e.baselineMetric
     else e.baselineMetric - e.candidateMetric) / Denominator(e)
  }

  /** `learningProposalEvaluationSchema`, as far as the types leave it open. */
  predicate ValidEvaluation(e: Evaluation) {
    0.0 <= e.confidence <= 1.0 && 0.0 <= e.worstGuardrailRegression <= 1.0
  }

  /** `adaptiveLearningPolicySchema` */
  predicate ValidPolicy(p: Policy) {
    && p.minEvidence > 0 && p.minUniqueEntities > 0 && 0.0 <= p.minConfidence <= 1.0
    && p.minRelativeLift > 0.0 && 0.0 <= p.maxGuardrailRegression <= 1.0
  }

  /** `evaluateLearningProposal`; None when one of its schemas throws. */
  function Evaluate(e: Evaluation, p: Policy): Option<Decision> {
    if ValidEvaluation(e) && ValidPolicy(p) then Some(Decide(e, p)) else None
  }

  function Decide(e: Evaluation, p: Policy): Decision {
    if e.worstGuardrailRegression > p.maxGuardrailRegression then Reject
    else if e.evidenceCount < p.minEvidence || e.uniqueEntities < p.minUniqueEntities
            || e.confidence < p.minConfidence then ContinueExperiment
    else if RelativeLift(e) < p.minRelativeLift then Reject
    else if e.risk in p.humanApprovalFor && !e.humanApproved then RequiresApproval
    else Promote
  }

  /** The guardrail, evidence and lift gates. */
  predicate PassesGates(e: Evaluation, p: Policy) {
    && e.worstGuardrailRegression <= p.maxGuardrailRegression
    && e.evidenceCount >= p.minEvidence && e.uniqueEntities >= p.minUniqueEntities
    && e.confidence >= p.minConfidence && RelativeLift(e) >= p.minRelativeLift
  }

  /** At least as good in every respect the gate looks at. */
  predicate NoWorse(e: Evaluation, f: Evaluation) {
    && f.risk == e.risk && (e.humanApproved ==> f.humanApproved)
    && f.evidenceCount >= e.evidenceCount && f.uniqueEntities >= e.uniqueEntities
    && f.confidence >= e.confidence && RelativeLift(f) >= RelativeLift(e)
    && f.worstGuardrailRegression <= e.worstGuardrailRegression
  }

  /** Better evidence never withdraws a promotion, nor an approval request that is not approved meanwhile. */
  lemma PromotionIsMonotone(e: Evaluation, f: Evaluation, p: Policy)
    requires NoWorse(e, f) && ValidEvaluation(f)
    ensures Evaluate(e, p) == Some(Promote) ==> Evaluate(f, p) == Some(Promote)
    ensures Evaluate(e, p) == Some(RequiresApproval) ==> Evaluate(f, p) == Some(RequiresApproval) || f.humanApproved
  {
  }

  /** The favourable decisions, and only they, mean that every gate is passed. */
  lemma FavourableIff(e: Evaluation, p: Policy)
    ensures Evaluate(e, p) in {Some(Promote), Some(RequiresApproval)} <==>
              ValidEvaluation(e) && ValidPolicy(p) && PassesGates(e, p)
    ensures Evaluate(e, p) == Some(RequiresApproval) ==> e.risk in p.humanApprovalFor && !e.humanApproved
    ensures Evaluate(e, p) == Some(Promote) ==> e.risk !in p.humanApprovalFor || e.humanApproved
  {
  }

  // ── The gate in terms of the measurements ────────────────────────────────

  lemma DivAtLeast(x: real, d: real, m: real)
    requires d > 0.0
    ensures x / d >= m <==> x >= m * d
  {
    var q := x / d;
    assert q * d == x;
    if q >= m {
      ScaleReals(m, q, d);
    } else {
      var short := m - q;
      assert short * d > 0.0;
      assert m * d == q * d + short * d;
    }
  }

  lemma ScaleReals(x: real, y: real, d: real)
    requires x <= y && d >= 0.0
    ensures x * d <= y * d
  {
    assert (y - x) * d >= 0.0;
  }

  /**
   * The metric moved in its direction by this share of the baseline's size, a
   * baseline below 1e-9 counting as 1e-9.
   */
  predicate LiftReached(direction: Direction, baseline: real, candidate: real, share: real) {
    var size := if baseline < 0.0 then -baseline else baseline;
    var gain := match direction case Increase => candidate - baseline case Decrease => baseline - candidate;
    gain >= share * (if size < 0.000000001 then 0.000000001 else size)
  }

  lemma LiftIsReached(e: Evaluation, share: real)
    ensures RelativeLift(e) >= share <==> LiftReached(e.metricDirection, e.baselineMetric, e.candidateMetric, share)
  {
    DivAtLeast(if e.metricDirection.Increase? then e.candidateMetric - e.baselineMetric
               else e.baselineMetric - e.candidateMetric, Denominator(e), share);
  }

  /** The decision from the measurements alone. */
  lemma DecisionIff(e: Evaluation, p: Policy)
    requires 0.0 <= e.confidence <= 1.0 && 0.0 <= e.worstGuardrailRegression <= 1.0 && ValidPolicy(p)
    ensures var d := Evaluate(e, p);
            var safe := e.worstGuardrailRegression <= p.maxGuardrailRegression;
            var enough := e.evidenceCount >= p.minEvidence && e.uniqueEntities >= p.minUniqueEntities
                          && e.confidence >= p.minConfidence;
            var better := LiftReached(e.metricDirection, e.baselineMetric, e.candidateMetric, p.minRelativeLift);
            && (d == Some(Reject) <==> !safe || (enough && !better))
            && (d == Some(ContinueExperiment) <==> safe && !enough)
            && (d == Some(RequiresApproval) <==>
                  safe && enough && better && e.risk in p.humanApprovalFor && !e.humanApproved)
            && (d == Some(Promote) <==>
                  safe && enough && better && (e.risk !in p.humanApprovalFor || e.humanApproved))
  {
    LiftIsReached(e, p.minRelativeLift);
  }

  /** A candidate that is not strictly better in its direction is never promoted and never sent for approval. */
  lemma OnlyBetterIsFavoured(e: Evaluation, p: Policy)
    requires Evaluate(e, p) in {Some(Promote), Some(RequiresApproval)}
    ensures match e.metricDirection
            case Increase => e.candidateMetric > e.baselineMetric
            case Decrease => e.candidateMetric < e.baselineMetric
  {
    LiftIsReached(e, p.minRelativeLift);
    var size := if e.baselineMetric < 0.0 then -e.baselineMetric else e.baselineMetric;
    var base := if size < 0.000000001 then 0.000000001 else size;
    assert p.minRelativeLift * base > 0.0;
  }

  /** For a baseline of at least 1e-9 in size, the lift gate compares the gain with a share of the baseline. */
  lemma LiftGateIff(e: Evaluation, p: Policy)
    requires ValidPolicy(p) && 0.0 <= e.confidence <= 1.0 && 0.0 <= e.worstGuardrailRegression <= 1.0
    requires e.worstGuardrailRegression <= p.maxGuardrailRegression && e.confidence >= p.minConfidence
    requires e.evidenceCount >= p.minEvidence && e.uniqueEntities >= p.minUniqueEntities
    requires e.baselineMetric >= 0.000000001 || -e.baselineMetric >= 0.000000001
    ensures var size := if e.baselineMetric < 0.0 then -e.baselineMetric else e.baselineMetric;
            Evaluate(e, p) in {Some(Promote), Some(RequiresApproval)} <==>
              match e.metricDirection
              case Increase => e.candidateMetric - e.baselineMetric >= p.minRelativeLift * size
              case Decrease => e.baselineMetric - e.candidateMetric >= p.minRelativeLift * size
  {
    LiftIsReached(e, p.minRelativeLift);
  }

  function Mirrored(e: Evaluation): Evaluation {
    e.(metricDirection := if e.metricDirection.Increase? then Decrease else Increase,
       baselineMetric := -e.baselineMetric, candidateMetric := -e.candidateMetric)
  }

  /** Minimising a metric is maximising its negation: the decision and the lift are the same. */
  lemma MirrorKeepsDecision(e: Evaluation, p: Policy)
    ensures RelativeLift(Mirrored(e)) == RelativeLift(e)
    ensures Evaluate(Mirrored(e), p) == Evaluate(e, p)
  {
    var f := Mirrored(e);
    assert Denominator(f) == Denominator(e);
  }

  // ── Self-healing ─────────────────────────────────────────────────────────

  datatype HealthState = Healthy | Degraded | Recovering | Quarantined

  datatype HealingAction = NoAction | Resume | RetryWithBackoff | UseFallback | Rollback | QuarantineAndEscalate

  datatype Health = Health(
    currentState: HealthState,
    errorRate: real,
    consecutiveFailures: nat,
    p95LatencyMs: real,
    stalenessSeconds: nat,
    dependencyAvailable: bool,
    fallbackAvailable: bool,
    lastKnownGoodAvailable: bool,
    recoveryAttempts: nat,
    guardrailBreached: bool)

  datatype HealingPolicy = HealingPolicy(
    maxErrorRate: real,
    maxConsecutiveFailures: nat,
    maxP95LatencyMs: real,
    maxStalenessSeconds: nat,
    maxRecoveryAttempts: nat,
    baseBackoffSeconds: nat)

  /** A null `retryAfterSeconds` is 0 here; the source only ever sets a positive number. */
  datatype Healing = Healing(
    nextState: HealthState,
    action: HealingAction,
    allowExternalActions: bool,
    retryAfterSeconds: nat)

  predicate Unhealthy(h: Health, p: HealingPolicy) {
    || !h.dependencyAvailable
    || h.errorRate > p.maxErrorRate
    || h.consecutiveFailures >= p.maxConsecutiveFailures
    || h.p95LatencyMs > p.maxP95LatencyMs
    || h.stalenessSeconds > p.maxStalenessSeconds
  }

  function Pow2(n: nat): (r: nat)
    ensures r >= 1
  {
    if n == 0 then 1 else 2 * Pow2(n - 1)
  }

  function Min(a: nat, b: nat): nat {
    if a < b then a else b
  }

  function DecideHealing(h: Health, p: HealingPolicy): Healing {
    var stop := if h.lastKnownGoodAvailable then Rollback else QuarantineAndEscalate;
    if h.guardrailBreached then Healing(Quarantined, stop, false, 0)
    else if !Unhealthy(h, p) then
      Healing(Healthy, if h.currentState.Healthy? then NoAction else Resume, true, 0)
    else if h.recoveryAttempts >= p.maxRecoveryAttempts then Healing(Quarantined, stop, false, 0)
    else if h.fallbackAvailable then Healing(Degraded, UseFallback, true, p.baseBackoffSeconds)
    else Healing(Recovering, RetryWithBackoff, false, p.baseBackoffSeconds * Pow2(Min(h.recoveryAttempts, 8)))
  }

  /** External actions go on only for a healthy component or one with a fallback, never past a breached guardrail. */
  lemma ExternalActionsNeedHealthOrFallback(h: Health, p: HealingPolicy)
    ensures DecideHealing(h, p).allowExternalActions <==>
              !h.guardrailBreached
              && (!Unhealthy(h, p) || (h.fallbackAvailable && h.recoveryAttempts < p.maxRecoveryAttempts))
  {
  }

  /**
   * The healing decision from the measurements alone: each next state exactly
   * when, and the action and the wait that go with it.
   */
  lemma HealingIff(h: Health, p: HealingPolicy)
    ensures var d := DecideHealing(h, p);
            var well := h.dependencyAvailable && h.errorRate <= p.maxErrorRate && h.p95LatencyMs <= p.maxP95LatencyMs
                        && h.consecutiveFailures < p.maxConsecutiveFailures
                        && h.stalenessSeconds <= p.maxStalenessSeconds;
            var tired := h.recoveryAttempts >= p.maxRecoveryAttempts;
            && (d.nextState.Healthy? <==> !h.guardrailBreached && well)
            && (d.nextState.Quarantined? <==> h.guardrailBreached || (!well && tired))
            && (d.nextState.Degraded? <==> !h.guardrailBreached && !well && !tired && h.fallbackAvailable)
            && (d.nextState.Recovering? <==> !h.guardrailBreached && !well && !tired && !h.fallbackAvailable)
            && (d.action.NoAction? <==> d.nextState.Healthy? && h.currentState.Healthy?)
            && (d.action.Resume? <==> d.nextState.Healthy? && !h.currentState.Healthy?)
            && (d.action.Rollback? <==> d.nextState.Quarantined? && h.lastKnownGoodAvailable)
            && (d.action.QuarantineAndEscalate? <==> d.nextState.Quarantined? && !h.lastKnownGoodAvailable)
            && (d.action.UseFallback? <==> d.nextState.Degraded?)
            && (d.action.RetryWithBackoff? <==> d.nextState.Recovering?)
            && (d.nextState.Degraded? ==> d.retryAfterSeconds == p.baseBackoffSeconds)
            && (d.nextState in {Healthy, Quarantined} ==> d.retryAfterSeconds == 0)
  {
  }

  /** The component keeps failing; only the caller's attempt counter moves. */
  function AtAttempt(h: Health, k: nat): Health {
    h.(recoveryAttempts := k)
  }

  predicate KeepsFailing(h: Health, p: HealingPolicy) {
    Unhealthy(h, p) && !h.fallbackAvailable && !h.guardrailBreached
  }

  /** Seconds waited at attempt k. */
  function Wait(h: Health, p: HealingPolicy, k: nat): nat {
    DecideHealing(AtAttempt(h, k), p).retryAfterSeconds
  }

  function TotalWait(h: Health, p: HealingPolicy, n: nat): nat {
    if n == 0 then 0 else TotalWait(h, p, n - 1) + Wait(h, p, n - 1)
  }

  lemma {:induction false} Pow2Grows(a: nat, b: nat)
    requires a <= b
    ensures 1 <= Pow2(a) <= Pow2(b)
    decreases b
  {
    if a == b {
      if a > 0 {
        Pow2Grows(a - 1, a - 1);
      }
    } else {
      Pow2Grows(a, b - 1);
    }
  }

  lemma Pow2Of8()
    ensures Pow2(8) == 256
  {
    assert Pow2(4) == 16;
  }

  /** The waits of a failing component never shrink and are at most 256 times the base. */
  lemma WaitsAreBoundedAndMonotone(h: Health, p: HealingPolicy, j: nat, k: nat)
    requires KeepsFailing(h, p) && j <= k < p.maxRecoveryAttempts
    ensures DecideHealing(AtAttempt(h, k), p).action.RetryWithBackoff?
    ensures p.baseBackoffSeconds <= Wait(h, p, j) <= Wait(h, p, k) <= 256 * p.baseBackoffSeconds
  {
    Pow2Of8();
    Pow2Grows(0, Min(j, 8));
    Pow2Grows(Min(j, 8), Min(k, 8));
    Pow2Grows(Min(k, 8), 8);
    var b := p.baseBackoffSeconds;
    ScaleMonotone(b, 1, Pow2(Min(j, 8)));
    ScaleMonotone(b, Pow2(Min(j, 8)), Pow2(Min(k, 8)));
    ScaleMonotone(b, Pow2(Min(k, 8)), 256);
  }

  lemma ScaleMonotone(b: nat, x: nat, y: nat)
    requires x <= y
    ensures b * x <= b * y
  {
  }

  /** Total of the doubling waits in units of the base: doubling stops at 256. */
  function Units(n: nat): nat {
    if n <= 9 then Pow2(n) - 1 else 511 + 256 * (n - 9)
  }

  lemma UnitsStep(n: nat)
    requires n > 0
    ensures Units(n) == Units(n - 1) + Pow2(Min(n - 1, 8))
  {
    Pow2Of8();
    Pow2Grows(0, n);
    Pow2Grows(0, n - 1);
    if n == 10 {
      assert Pow2(9) == 512;
    }
  }

  lemma Distribute(b: nat, x: nat, y: nat)
    ensures b * (x + y) == b * x + b * y
  {
  }

  /**
   * A failing component is quarantined at attempt maxRecoveryAttempts and no
   * sooner, after a total wait with this closed form.
   */
  lemma {:induction false} QuarantineAfterExactWait(h: Health, p: HealingPolicy, n: nat)
    requires KeepsFailing(h, p) && n <= p.maxRecoveryAttempts
    ensures TotalWait(h, p, n) == p.baseBackoffSeconds * Units(n)
    ensures DecideHealing(AtAttempt(h, n), p).nextState.Quarantined? <==> n == p.maxRecoveryAttempts
  {
    if n > 0 {
      QuarantineAfterExactWait(h, p, n - 1);
      UnitsStep(n);
      Distribute(p.baseBackoffSeconds, Units(n - 1), Pow2(Min(n - 1, 8)));
    }
  }
}
