/**
 * Aggregation of experiment observations
 * (`summarizeEvidenceRecords`, `mean`, and the SQL of `summarizeEvidence`,
 * packages/db/src/adaptive-control-plane-repository.ts). Metric values are
 * reals; rounding is not the point.
 */
module EvidenceSummary {
  import opened Text
  import opened Listing

  datatype Variant = A | B

  datatype Observation = Observation(
    id: nat,
    tenantId: string,
    experimentId: nat,
    idempotencyKey: string,
    entityType: string,
    entityId: string,
    variant: Variant,
    metricName: string,
    metricValue: real,
    isGuardrail: bool,
    attributionConfidence: real,
    assignmentId: Option<nat>)

  type Rows = seq<Observation>

  datatype Summary = Summary(
    metricName: string,
    evidenceCount: nat,
    uniqueEntities: nat,
    baselineMetric: real,
    candidateMetric: real,
    meanAttributionConfidence: real,
    baselineGuardrailMetric: Option<real>,
    candidateGuardrailMetric: Option<real>,
    worstGuardrailRegression: real)

  // ── The in-memory form: filter, map, mean ────────────────────────────────

  function Map<T, U>(s: seq<T>, f: T -> U): (r: seq<U>)
    ensures |r| == |s| && forall i | 0 <= i < |s| :: r[i] == f(s[i])
  {
    if s == [] then [] else [f(s[0])] + Map(s[1..], f)
  }

  function Sum(values: seq<real>): real {
    if values == [] then 0.0 else values[0] + Sum(values[1..])
  }

  function Mean(values: seq<real>): Option<real> {
    if values == [] then None else Some(Sum(values) / (|values| as real))
  }

  predicate IsOutcome(r: Observation, metric: string) {
    !r.isGuardrail && r.metricName == metric
  }

  /** An absent or empty guardrail name selects nothing. */
  predicate IsGuardrail(r: Observation, guardrail: Option<string>) {
    guardrail.Some? && guardrail.value != "" && r.isGuardrail && r.metricName == guardrail.value
  }

  function OutcomeRows(records: Rows, metric: string): Rows {
    Filter(records, (r: Observation) => IsOutcome(r, metric))
  }

  function GuardrailRows(records: Rows, guardrail: Option<string>): Rows {
    Filter(records, (r: Observation) => IsGuardrail(r, guardrail))
  }

  function OfVariant(rows: Rows, v: Variant): Rows {
    Filter(rows, (r: Observation) => r.variant == v)
  }

  function VariantMean(rows: Rows, v: Variant): Option<real> {
    Mean(Map(OfVariant(rows, v), (r: Observation) => r.metricValue))
  }

  function JoinedEntity(r: Observation): string {
    Joined(r.entityType, r.entityId)
  }

  function JoinedEntities(rows: Rows): set<string> {
    set r | r in rows :: JoinedEntity(r)
  }

  function Max(x: real, y: real): real {
    if x < y then y else x
  }

  function Regression(baseline: Option<real>, candidate: Option<real>): real {
    if baseline.None? || candidate.None? then Max(0.0, 0.0) else Max(0.0, candidate.value - baseline.value)
  }

  function OrZero(v: Option<real>): real {
    if v.Some? then v.value else 0.0
  }

  function Summarize(records: Rows, metric: string, guardrail: Option<string>): Option<Summary> {
    var rows := OutcomeRows(records, metric);
    var baseline, candidate := VariantMean(rows, A), VariantMean(rows, B);
    if baseline.None? || candidate.None? then None
    else
      var guards := GuardrailRows(records, guardrail);
      var g, h := VariantMean(guards, A), VariantMean(guards, B);
      Some(Summary(metric, |rows|, |JoinedEntities(rows)|, baseline.value, candidate.value,
                   OrZero(Mean(Map(rows, (r: Observation) => r.attributionConfidence))), g, h, Regression(g, h)))
  }

  // ── The SQL form: one pass with conditional averages ─────────────────────

  /** A running average that passes over NULL. */
  datatype Avg = Avg(count: nat, total: real)

  function Add(a: Avg, v: Option<real>): Avg {
    if v.None? then a else Avg(a.count + 1, a.total + v.value)
  }

  function Result(a: Avg): Option<real> {
    if a.count == 0 then None else Some(a.total / (a.count as real))
  }

  /** `CASE WHEN variant = v THEN metric_value END` */
  function CaseVariant(r: Observation, v: Variant): Option<real> {
    if r.variant == v then Some(r.metricValue) else None
  }

  datatype Totals = Totals(
    count: nat,
    entities: set<(string, string)>,
    baseline: Avg,
    candidate: Avg,
    confidence: Avg,
    baselineGuard: Avg,
    candidateGuard: Avg)

  const NoTotals := Totals(0, {}, Avg(0, 0.0), Avg(0, 0.0), Avg(0, 0.0), Avg(0, 0.0), Avg(0, 0.0))

  function AddRow(t: Totals, r: Observation, metric: string, guardrail: Option<string>): Totals {
    var t1 := if !IsOutcome(r, metric) then t
              else t.(count := t.count + 1, entities := t.entities + {(r.entityType, r.entityId)},
                      baseline := Add(t.baseline, CaseVariant(r, A)), candidate := Add(t.candidate, CaseVariant(r, B)),
                      confidence := Add(t.confidence, Some(r.attributionConfidence)));
    if !IsGuardrail(r, guardrail) then t1
    else t1.(baselineGuard := Add(t1.baselineGuard, CaseVariant(r, A)),
             candidateGuard := Add(t1.candidateGuard, CaseVariant(r, B)))
  }

  function Pass(records: Rows, metric: string, guardrail: Option<string>): Totals {
    if records == [] then NoTotals
    else
      var n := |records| - 1;
      AddRow(Pass(records[..n], metric, guardrail), records[n], metric, guardrail)
  }

  /** What the two SELECTs give for parsed names. */
  function Aggregate(records: Rows, metric: string, guardrail: Option<string>): Option<Summary> {
    var t := Pass(records, metric, guardrail);
    if Result(t.baseline).None? || Result(t.candidate).None? then None
    else
      var g, h := Result(t.baselineGuard), Result(t.candidateGuard);
      Some(Summary(metric, t.count, |t.entities|, Result(t.baseline).value, Result(t.candidate).value,
                   OrZero(Result(t.confidence)), g, h, Regression(g, h)))
  }

  datatype Answer = Rejected | Answered(summary: Option<Summary>)

  function TrimmedName(name: Option<string>): Option<string> {
    if name.Some? then Some(Trim(name.value)) else None
  }

  predicate IsRejected(metric: string, guardrail: Option<string>) {
    Trim(metric) == "" || (guardrail.Some? && Trim(guardrail.value) == "")
  }

  /** The Postgres form trims the names it is given and rejects empty ones. */
  function SqlSummarize(records: Rows, metric: string, guardrail: Option<string>): Answer {
    if IsRejected(metric, guardrail) then Rejected
    else Answered(Aggregate(records, Trim(metric), TrimmedName(guardrail)))
  }

  // ── Agreement ────────────────────────────────────────────────────────────

  function Average(values: seq<real>): Avg {
    Avg(|values|, Sum(values))
  }

  lemma {:induction false} SumAppend(s: seq<real>, x: real)
    ensures Sum(s + [x]) == Sum(s) + x
  {
    if s != [] {
      assert (s + [x])[1..] == s[1..] + [x];
      SumAppend(s[1..], x);
    }
  }

  lemma {:induction false} FilterAppend<T>(s: seq<T>, keep: T -> bool, x: T)
    ensures Filter(s + [x], keep) == if keep(x) then Filter(s, keep) + [x] else Filter(s, keep)
  {
    if s != [] {
      assert (s + [x])[1..] == s[1..] + [x];
      FilterAppend(s[1..], keep, x);
    }
  }

  /** One more row adds its value to the average of the rows that are kept. */
  lemma AverageAppend<T>(s: seq<T>, keep: T -> bool, f: T -> real, x: T)
    ensures Average(Map(Filter(s + [x], keep), f))
            == Add(Average(Map(Filter(s, keep), f)), if keep(x) then Some(f(x)) else None)
  {
    FilterAppend(s, keep, x);
    var kept := Filter(s, keep);
    if keep(x) {
      assert Map(kept + [x], f) == Map(kept, f) + [f(x)];
      SumAppend(Map(kept, f), f(x));
    }
  }

  lemma {:induction false} VariantAppend(s: Rows, keep: Observation -> bool, v: Variant, x: Observation)
    ensures VariantAverage(Filter(s + [x], keep), v)
         == if keep(x) then Add(VariantAverage(Filter(s, keep), v), CaseVariant(x, v))
            else VariantAverage(Filter(s, keep), v)
  {
    FilterAppend(s, keep, x);
    assert OfVariant(Filter(s + [x], keep), v) == Filter(Filter(s + [x], keep), (r: Observation) => r.variant == v);
    AverageAppend(Filter(s, keep), (r: Observation) => r.variant == v, (r: Observation) => r.metricValue, x);
  }

  function VariantAverage(rows: Rows, v: Variant): Avg {
    Average(Map(OfVariant(rows, v), (r: Observation) => r.metricValue))
  }

  function ConfidenceAverage(rows: Rows): Avg {
    Average(Map(rows, (r: Observation) => r.attributionConfidence))
  }

  function Entities(rows: Rows): set<(string, string)> {
    set r | r in rows :: (r.entityType, r.entityId)
  }

  /** What the pass has to compute. */
  function Averages(rows: Rows, guards: Rows): Totals {
    Totals(|rows|, Entities(rows), VariantAverage(rows, A), VariantAverage(rows, B), ConfidenceAverage(rows),
           VariantAverage(guards, A), VariantAverage(guards, B))
  }

  /** The pass computes the averages of the filtered rows. */
  lemma {:induction false} PassIsAverages(records: Rows, metric: string, guardrail: Option<string>)
    ensures Pass(records, metric, guardrail)
            == Averages(OutcomeRows(records, metric), GuardrailRows(records, guardrail))
  {
    if records != [] {
      var n := |records| - 1;
      PassIsAverages(records[..n], metric, guardrail);
      assert records == records[..n] + [records[n]];
      AveragesAppend(records[..n], records[n], metric, guardrail);
    }
  }

  lemma AveragesAppend(s: Rows, x: Observation, metric: string, guardrail: Option<string>)
    ensures Averages(OutcomeRows(s + [x], metric), GuardrailRows(s + [x], guardrail))
         == AddRow(Averages(OutcomeRows(s, metric), GuardrailRows(s, guardrail)), x, metric, guardrail)
  {
    var outcome := (r: Observation) => IsOutcome(r, metric);
    var guard := (r: Observation) => IsGuardrail(r, guardrail);
    VariantAppend(s, outcome, A, x);
    VariantAppend(s, outcome, B, x);
    VariantAppend(s, guard, A, x);
    VariantAppend(s, guard, B, x);
    AverageAppend(s, outcome, (r: Observation) => r.attributionConfidence, x);
    FilterAppend(s, outcome, x);
    EntitiesAppend(Filter(s, outcome), x);
  }

  lemma EntitiesAppend(rows: Rows, x: Observation)
    ensures Entities(rows + [x]) == Entities(rows) + {(x.entityType, x.entityId)}
  {
  }

  /** Two outcome rows of different entities whose joined names are the same text. */
  ghost predicate Collide(rows: Rows) {
    exists r, s :: r in rows && s in rows && (r.entityType, r.entityId) != (s.entityType, s.entityId)
                   && JoinedEntity(r) == JoinedEntity(s)
  }

  /**
   * The in-memory summary is the SQL summary in every field but the entity
   * count, which is never larger, and equal exactly when no two entities join
   * to the same text.
   */
  lemma FormsAgree(records: Rows, metric: string, guardrail: Option<string>)
    ensures var mem, sql := Summarize(records, metric, guardrail), Aggregate(records, metric, guardrail);
            && (mem.Some? <==> sql.Some?)
            && (mem.Some? ==>
                  && mem.value == sql.value.(uniqueEntities := mem.value.uniqueEntities)
                  && mem.value.uniqueEntities <= sql.value.uniqueEntities
                  && (mem == sql <==> !Collide(OutcomeRows(records, metric))))
  {
    PassIsAverages(records, metric, guardrail);
    JoinedCount(OutcomeRows(records, metric));
  }

  lemma JoinedCount(rows: Rows)
    ensures |JoinedEntities(rows)| <= |Entities(rows)|
    ensures |JoinedEntities(rows)| == |Entities(rows)| <==> !Collide(rows)
  {
    var join := (p: (string, string)) => JoinPair(p);
    JoinedIsImage(rows);
    ImageSize(Entities(rows), join, JoinedEntities(rows));
    CollideIsOnPairs(rows);
  }

  function JoinPair(p: (string, string)): string {
    Joined(p.0, p.1)
  }

  lemma EntityOf(rows: Rows, p: (string, string)) returns (r: Observation)
    requires p in Entities(rows)
    ensures r in rows && p == (r.entityType, r.entityId) && JoinPair(p) == JoinedEntity(r)
  {
    r :| r in rows && (r.entityType, r.entityId) == p;
  }

  lemma JoinedIsImage(rows: Rows)
    ensures forall t :: t in JoinedEntities(rows) <==> exists p :: p in Entities(rows) && JoinPair(p) == t
  {
    forall p | p in Entities(rows)
      ensures JoinPair(p) in JoinedEntities(rows)
    {
      var r := EntityOf(rows, p);
    }
    forall r | r in rows
      ensures exists p :: p in Entities(rows) && JoinPair(p) == JoinedEntity(r)
    {
      assert (r.entityType, r.entityId) in Entities(rows) && JoinPair((r.entityType, r.entityId)) == JoinedEntity(r);
    }
  }

  lemma CollideIsOnPairs(rows: Rows)
    ensures Collide(rows) <==>
            !forall p, q | p in Entities(rows) && q in Entities(rows) && p != q :: JoinPair(p) != JoinPair(q)
  {
    if Collide(rows) {
      var r, s :| r in rows && s in rows && (r.entityType, r.entityId) != (s.entityType, s.entityId)
                  && JoinedEntity(r) == JoinedEntity(s);
      var p, q := (r.entityType, r.entityId), (s.entityType, s.entityId);
      assert p in Entities(rows) && q in Entities(rows) && JoinPair(p) == JoinPair(q);
    }
    if p, q :| p in Entities(rows) && q in Entities(rows) && p != q && JoinPair(p) == JoinPair(q) {
      var r := EntityOf(rows, p);
      var s := EntityOf(rows, q);
    }
  }

  /** A function's image is no larger than its domain, and as large exactly when it is injective there. */
  lemma {:induction false} ImageSize<T(!new), U(!new)>(s: set<T>, f: T -> U, image: set<U>)
    requires forall y :: y in image <==> exists x :: x in s && f(x) == y
    ensures |image| <= |s|
    ensures |image| == |s| <==> forall x, y | x in s && y in s && x != y :: f(x) != f(y)
  {
    if s != {} {
      var x :| x in s;
      var rest := s - {x};
      var image' := set y | y in rest :: f(y);
      ImageSize(rest, f, image');
      assert image == image' + {f(x)};
    } else {
      assert image == {};
    }
  }

  /** Entity types without a colon cannot collide, so there the two forms are the same. */
  lemma ColonFreeTypesAgree(records: Rows, metric: string, guardrail: Option<string>)
    requires forall r | r in records :: ':' !in r.entityType
    ensures Summarize(records, metric, guardrail) == Aggregate(records, metric, guardrail)
  {
    FormsAgree(records, metric, guardrail);
    var rows := OutcomeRows(records, metric);
    forall r, s | r in rows && s in rows && JoinedEntity(r) == JoinedEntity(s)
      ensures (r.entityType, r.entityId) == (s.entityType, s.entityId)
    {
      FilterMembers(records, (o: Observation) => IsOutcome(o, metric), r);
      FilterMembers(records, (o: Observation) => IsOutcome(o, metric), s);
      JoinInjective(':', r.entityType, r.entityId, s.entityType, s.entityId);
    }
  }

  /** Two entities, one text: the in-memory count is one, the SQL count is two. */
  lemma CollidingEntities(r: Observation, s: Observation)
    requires JoinedEntity(r) == JoinedEntity(s) && r.entityType != s.entityType
    requires r.variant == A && !r.isGuardrail && s.variant == B && !s.isGuardrail && s.metricName == r.metricName
    ensures var mem, sql := Summarize([r, s], r.metricName, None), Aggregate([r, s], r.metricName, None);
            mem.Some? && sql.Some? && mem.value.uniqueEntities < sql.value.uniqueEntities
  {
    FormsAgree([r, s], r.metricName, None);
    var keep := (o: Observation) => IsOutcome(o, r.metricName);
    assert [s][1..] == [] && Filter([s], keep) == [s] + Filter([], keep) == [s];
    assert [r, s][1..] == [s] && Filter([r, s], keep) == [r] + Filter([s], keep);
    var a, b := (o: Observation) => o.variant == A, (o: Observation) => o.variant == B;
    FilterMembers([r] + [s], a, r);
    FilterMembers([r] + [s], b, s);
    assert r in [r] + [s] && s in [r] + [s];
  }

  lemma ColonEntitiesCollide(r: Observation, s: Observation)
    requires r.entityType == "a:b" && r.entityId == "c" && s.entityType == "a" && s.entityId == "b:c"
    ensures JoinedEntity(r) == JoinedEntity(s) && r.entityType != s.entityType
  {
    assert JoinedEntity(r) == ['a', ':', 'b', ':', 'c'] == JoinedEntity(s);
  }

  // ── Names as they are given ──────────────────────────────────────────────

  /** Stored names are trimmed and not empty. */
  predicate StoredNames(records: Rows) {
    forall i | 0 <= i < |records| :: NonEmptyText(records[i].metricName)
  }

  lemma {:induction false} NothingKept(records: Rows, keep: Observation -> bool)
    requires forall i | 0 <= i < |records| :: !keep(records[i])
    ensures Filter(records, keep) == []
  {
    if records != [] {
      NothingKept(records[1..], keep);
    }
  }

  /** A metric name that is not as stored finds no outcome in memory. */
  lemma UnstoredMetricFindsNothing(records: Rows, metric: string, guardrail: Option<string>)
    requires StoredNames(records) && !NonEmptyText(metric)
    ensures Summarize(records, metric, guardrail) == None
  {
    NothingKept(records, (r: Observation) => IsOutcome(r, metric));
  }

  lemma UnstoredGuardrailFindsNothing(records: Rows, guardrail: Option<string>)
    requires StoredNames(records) && guardrail.Some? && !NonEmptyText(guardrail.value)
    ensures GuardrailRows(records, guardrail) == []
  {
    NothingKept(records, (r: Observation) => IsGuardrail(r, guardrail));
  }

  lemma TrimOfName(name: string)
    ensures NonEmptyText(name) <==> Trim(name) == name && name != ""
  {
    TrimTrims(name);
  }

  lemma NoneKept(rows: Rows)
    ensures VariantMean(rows, A).None? && VariantMean(rows, B).None? <==> rows == []
  {
    if rows != [] {
      var v := rows[0].variant;
      FilterMembers(rows, (r: Observation) => r.variant == v, rows[0]);
      assert OfVariant(rows, v) != [];
    }
  }

  /** The two forms answer alike. */
  predicate Agree(records: Rows, metric: string, guardrail: Option<string>) {
    SqlSummarize(records, metric, guardrail) == Answered(Summarize(records, metric, guardrail))
  }

  /**
   * Exactly when the two forms answer alike on names as they are given. An
   * empty name is rejected by the SQL form alone. A metric name with spaces
   * around it agrees only where the trimmed name finds nothing either. With a
   * proper metric name and nothing found, they agree; with something found,
   * the entities must not collide and a guardrail name with spaces around it
   * must find nothing when trimmed.
   */
  lemma FormsAgreeIff(records: Rows, metric: string, guardrail: Option<string>)
    requires StoredNames(records)
    ensures IsRejected(metric, guardrail) ==> !Agree(records, metric, guardrail)
    ensures !IsRejected(metric, guardrail) && !NonEmptyText(metric) ==>
              (Agree(records, metric, guardrail) <==>
                 || OfVariant(OutcomeRows(records, Trim(metric)), A) == []
                 || OfVariant(OutcomeRows(records, Trim(metric)), B) == [])
    ensures !IsRejected(metric, guardrail) && NonEmptyText(metric) ==>
              (Agree(records, metric, guardrail) <==>
                 || Summarize(records, metric, guardrail).None?
                 || (&& !Collide(OutcomeRows(records, metric))
                     && (guardrail.None? || NonEmptyText(guardrail.value)
                         || GuardrailRows(records, TrimmedName(guardrail)) == [])))
  {
    TrimOfName(metric);
    if !IsRejected(metric, guardrail) && !NonEmptyText(metric) {
      UnstoredMetricFindsNothing(records, metric, guardrail);
      PassIsAverages(records, Trim(metric), TrimmedName(guardrail));
    } else if !IsRejected(metric, guardrail) {
      FormsAgree(records, metric, TrimmedName(guardrail));
      if guardrail.Some? {
        TrimOfName(guardrail.value);
        if Summarize(records, metric, guardrail).Some? {
          GuardrailAgreesIff(records, metric, guardrail);
        }
      }
    }
  }

  /** Under the same metric the guardrail's spaces matter only when its trimmed name finds rows. */
  lemma GuardrailAgreesIff(records: Rows, metric: string, guardrail: Option<string>)
    requires StoredNames(records) && guardrail.Some? && Trim(guardrail.value) != ""
    requires Summarize(records, metric, guardrail).Some?
    ensures Summarize(records, metric, TrimmedName(guardrail)).Some?
    ensures var m := Summarize(records, metric, guardrail).value;
            var n := Summarize(records, metric, TrimmedName(guardrail)).value;
            && m.uniqueEntities == n.uniqueEntities
            && (m == n <==> NonEmptyText(guardrail.value) || GuardrailRows(records, TrimmedName(guardrail)) == [])
  {
    TrimOfName(guardrail.value);
    NoneKept(GuardrailRows(records, TrimmedName(guardrail)));
    if !NonEmptyText(guardrail.value) {
      UnstoredGuardrailFindsNothing(records, guardrail);
      NoneKept([]);
    }
  }

  // ── What the averages say ────────────────────────────────────────────────

  lemma {:induction false} SumBetween(values: seq<real>, lo: real, hi: real)
    requires forall i | 0 <= i < |values| :: lo <= values[i] <= hi
    ensures lo * (|values| as real) <= Sum(values) <= hi * (|values| as real)
  {
    if values != [] {
      SumBetween(values[1..], lo, hi);
    }
  }

  lemma {:induction false} Extremes(values: seq<real>) returns (i: nat, j: nat)
    requires values != []
    ensures i < |values| && j < |values|
    ensures forall k | 0 <= k < |values| :: values[i] <= values[k] <= values[j]
    decreases |values|
  {
    i, j := 0, 0;
    if |values| > 1 {
      var n := |values| - 1;
      i, j := Extremes(values[..n]);
      assert forall k | 0 <= k < n :: values[..n][k] == values[k];
      i := if values[n] < values[i] then n else i;
      j := if values[n] > values[j] then n else j;
    }
  }

  lemma Quotient(lo: real, sum: real, hi: real, n: real)
    requires n > 0.0 && lo * n <= sum <= hi * n
    ensures lo <= sum / n <= hi
  {
  }

  /** A mean lies between the smallest and the largest of its values. */
  lemma MeanIsBetween(values: seq<real>)
    requires values != []
    ensures exists i, j :: 0 <= i < |values| && 0 <= j < |values| && values[i] <= Mean(values).value <= values[j]
  {
    var i, j := Extremes(values);
    SumBetween(values, values[i], values[j]);
    Quotient(values[i], Sum(values), values[j], |values| as real);
  }

  /**
   * Each variant's mean lies between two of its own observations, and a
   * regression is reported only when B is worse.
   */
  lemma SummaryIsSane(records: Rows, metric: string, guardrail: Option<string>)
    requires Summarize(records, metric, guardrail).Some?
    ensures var s := Summarize(records, metric, guardrail).value;
            && MeanOfRecords(records, metric, A, s.baselineMetric)
            && MeanOfRecords(records, metric, B, s.candidateMetric)
            && s.worstGuardrailRegression >= 0.0
            && (s.worstGuardrailRegression > 0.0 <==>
                  && s.baselineGuardrailMetric.Some? && s.candidateGuardrailMetric.Some?
                  && s.candidateGuardrailMetric.value > s.baselineGuardrailMetric.value)
  {
    VariantMeanIsBetween(records, metric, A);
    VariantMeanIsBetween(records, metric, B);
  }

  ghost predicate MeanOfRecords(records: Rows, metric: string, v: Variant, mean: real) {
    exists lo, hi :: lo in records && hi in records && IsOutcome(lo, metric) && IsOutcome(hi, metric)
                     && lo.variant == v && hi.variant == v && lo.metricValue <= mean <= hi.metricValue
  }

  lemma VariantMeanIsBetween(records: Rows, metric: string, v: Variant)
    requires VariantMean(OutcomeRows(records, metric), v).Some?
    ensures MeanOfRecords(records, metric, v, VariantMean(OutcomeRows(records, metric), v).value)
  {
    var rows := OutcomeRows(records, metric);
    var mine := OfVariant(rows, v);
    var values := Map(mine, (r: Observation) => r.metricValue);
    MeanIsBetween(values);
    var i, j :| 0 <= i < |values| && 0 <= j < |values| && values[i] <= Mean(values).value <= values[j];
    forall k | k in {i, j}
      ensures mine[k] in records && IsOutcome(mine[k], metric) && mine[k].variant == v
    {
      FilterMembers(rows, (r: Observation) => r.variant == v, mine[k]);
      FilterMembers(records, (r: Observation) => IsOutcome(r, metric), mine[k]);
    }
  }

  // ── What a summary says of the records ───────────────────────────────────

  /** An observation of this metric in this arm, as a guardrail or as an outcome. */
  predicate Measures(r: Observation, guard: bool, name: string, v: Variant) {
    r.isGuardrail == guard && r.metricName == name && r.variant == v
  }

  ghost predicate Measured(records: Rows, guard: bool, name: string, v: Variant) {
    exists r :: r in records && Measures(r, guard, name, v)
  }

  /** The number lies between the values of two such observations. */
  ghost predicate Between(records: Rows, guard: bool, name: string, v: Variant, x: real) {
    exists lo, hi :: lo in records && hi in records && Measures(lo, guard, name, v) && Measures(hi, guard, name, v)
                     && lo.metricValue <= x <= hi.metricValue
  }

  /** The mean of one arm's rows is there exactly when a record measures it, and lies between two such records. */
  lemma ArmMean(records: Rows, keep: Observation -> bool, guard: bool, name: string, v: Variant)
    requires forall r :: keep(r) <==> r.isGuardrail == guard && r.metricName == name
    ensures var m := VariantMean(Filter(records, keep), v);
            && (m.Some? <==> Measured(records, guard, name, v))
            && (m.Some? ==> Between(records, guard, name, v, m.value))
  {
    var rows := Filter(records, keep);
    var mine := OfVariant(rows, v);
    var values := Map(mine, (r: Observation) => r.metricValue);
    forall r: Observation
      ensures r in mine <==> r in records && Measures(r, guard, name, v)
    {
      FilterMembers(rows, (o: Observation) => o.variant == v, r);
      FilterMembers(records, keep, r);
    }
    if mine != [] {
      assert mine[0] in mine;
      MeanIsBetween(values);
      var i, j :| 0 <= i < |values| && 0 <= j < |values| && values[i] <= Mean(values).value <= values[j];
      assert mine[i] in mine && mine[j] in mine;
    }
  }

  /** The outcome rows of a summary: there is one exactly when both arms were measured. */
  lemma OutcomesByFields(records: Rows, metric: string, guardrail: Option<string>)
    ensures var s := Summarize(records, metric, guardrail);
            && (s.Some? <==> Measured(records, false, metric, A) && Measured(records, false, metric, B))
            && (s.Some? ==>
                  && s.value.metricName == metric
                  && Between(records, false, metric, A, s.value.baselineMetric)
                  && Between(records, false, metric, B, s.value.candidateMetric)
                  && s.value.evidenceCount
                     == |Filter(records, (r: Observation) => !r.isGuardrail && r.metricName == metric)|)
  {
    var keep := (r: Observation) => IsOutcome(r, metric);
    ArmMean(records, keep, false, metric, A);
    ArmMean(records, keep, false, metric, B);
    FilterSame(records, keep, (r: Observation) => !r.isGuardrail && r.metricName == metric);
  }

  lemma {:induction false} FilterSame(records: Rows, f: Observation -> bool, g: Observation -> bool)
    requires forall r :: f(r) <==> g(r)
    ensures Filter(records, f) == Filter(records, g)
  {
    if records != [] {
      FilterSame(records[1..], f, g);
    }
  }

  /** The mean confidence is that of the outcome rows, and lies between two of theirs. */
  lemma ConfidenceByFields(records: Rows, metric: string, guardrail: Option<string>)
    requires Summarize(records, metric, guardrail).Some?
    ensures exists lo, hi :: lo in records && hi in records && !lo.isGuardrail && !hi.isGuardrail
              && lo.metricName == metric && hi.metricName == metric
              && lo.attributionConfidence <= Summarize(records, metric, guardrail).value.meanAttributionConfidence
                 <= hi.attributionConfidence
  {
    var rows := OutcomeRows(records, metric);
    var values := Map(rows, (r: Observation) => r.attributionConfidence);
    NoneKept(rows);
    MeanIsBetween(values);
    var i, j :| 0 <= i < |values| && 0 <= j < |values| && values[i] <= Mean(values).value <= values[j];
    FilterMembers(records, (r: Observation) => IsOutcome(r, metric), rows[i]);
    FilterMembers(records, (r: Observation) => IsOutcome(r, metric), rows[j]);
  }

  /**
   * The guardrail of a summary: under a name that is not empty each arm's mean
   * is there exactly when a guardrail record of that name measures it, and lies
   * between two of them; the regression is what B's mean exceeds A's by.
   */
  lemma GuardrailByFields(records: Rows, metric: string, guardrail: Option<string>)
    requires Summarize(records, metric, guardrail).Some?
    ensures var s := Summarize(records, metric, guardrail).value;
            var g, h := s.baselineGuardrailMetric, s.candidateGuardrailMetric;
            && (guardrail == None || guardrail == Some("") ==> g == None && h == None)
            && (guardrail.Some? && guardrail.value != "" ==>
                  && (g.Some? <==> Measured(records, true, guardrail.value, A))
                  && (h.Some? <==> Measured(records, true, guardrail.value, B))
                  && (g.Some? ==> Between(records, true, guardrail.value, A, g.value))
                  && (h.Some? ==> Between(records, true, guardrail.value, B, h.value)))
            && s.worstGuardrailRegression
               == if g.Some? && h.Some? && h.value > g.value then h.value - g.value else 0.0
  {
    var keep := (r: Observation) => IsGuardrail(r, guardrail);
    if guardrail.Some? && guardrail.value != "" {
      ArmMean(records, keep, true, guardrail.value, A);
      ArmMean(records, keep, true, guardrail.value, B);
    } else {
      NothingKept(records, keep);
    }
  }

  /** A breach shows: when every guardrail value of B exceeds every one of A, the regression is positive. */
  lemma BreachShows(records: Rows, metric: string, guardrail: string)
    requires Summarize(records, metric, Some(guardrail)).Some? && guardrail != ""
    requires Measured(records, true, guardrail, A) && Measured(records, true, guardrail, B)
    requires forall r, s | r in records && s in records && Measures(r, true, guardrail, A)
               && Measures(s, true, guardrail, B) :: r.metricValue < s.metricValue
    ensures Summarize(records, metric, Some(guardrail)).value.worstGuardrailRegression > 0.0
  {
    GuardrailByFields(records, metric, Some(guardrail));
    var s := Summarize(records, metric, Some(guardrail)).value;
    ArmsApart(records, guardrail, s.baselineGuardrailMetric.value, s.candidateGuardrailMetric.value);
  }

  lemma ArmsApart(records: Rows, guardrail: string, a: real, b: real)
    requires Between(records, true, guardrail, A, a) && Between(records, true, guardrail, B, b)
    requires forall r, s | r in records && s in records && Measures(r, true, guardrail, A)
               && Measures(s, true, guardrail, B) :: r.metricValue < s.metricValue
    ensures a < b
  {
    var x, top :| x in records && top in records && Measures(x, true, guardrail, A) && Measures(top, true, guardrail, A)
                  && x.metricValue <= a <= top.metricValue;
    var low, y :| low in records && y in records && Measures(low, true, guardrail, B) && Measures(y, true, guardrail, B)
                  && low.metricValue <= b <= y.metricValue;
    assert top.metricValue < low.metricValue;
  }

  // ── Order does not matter ────────────────────────────────────────────────

  lemma AddCommutes(t: Totals, r: Observation, s: Observation, metric: string, guardrail: Option<string>)
    ensures AddRow(AddRow(t, r, metric, guardrail), s, metric, guardrail)
         == AddRow(AddRow(t, s, metric, guardrail), r, metric, guardrail)
  {
  }

  lemma WithoutTwo(s: Rows, i: nat)
    requires i < |s| - 1
    ensures var n, others := |s| - 1, s[..i] + s[i + 1..];
            |others| == n && others[n - 1] == s[n] && others[..n - 1] == s[..n][..i] + s[..n][i + 1..]
  {
    var n := |s| - 1;
    assert s[i + 1..] == s[..n][i + 1..] + [s[n]];
    assert s[..i] + s[i + 1..] == (s[..n][..i] + s[..n][i + 1..]) + [s[n]];
  }

  /** A row may as well come last. */
  lemma {:induction false} PassRemove(records: Rows, i: nat, metric: string, guardrail: Option<string>)
    requires i < |records|
    ensures Pass(records, metric, guardrail)
         == AddRow(Pass(records[..i] + records[i + 1..], metric, guardrail), records[i], metric, guardrail)
    decreases |records|
  {
    var n := |records| - 1;
    var others := records[..i] + records[i + 1..];
    if i < n {
      var shorter := records[..n];
      PassRemove(shorter, i, metric, guardrail);
      WithoutTwo(records, i);
      AddCommutes(Pass(shorter[..i] + shorter[i + 1..], metric, guardrail), records[i], records[n], metric, guardrail);
    } else {
      assert others == records[..n];
    }
  }

  lemma WithoutOne(s: Rows, i: nat)
    requires i < |s|
    ensures multiset(s[..i] + s[i + 1..]) == multiset(s) - multiset{s[i]}
  {
    assert s == s[..i] + [s[i]] + s[i + 1..];
  }

  lemma {:induction false} PassOfPermutation(records: Rows, records': Rows, metric: string, guardrail: Option<string>)
    requires multiset(records) == multiset(records')
    ensures Pass(records, metric, guardrail) == Pass(records', metric, guardrail)
    decreases |records|
  {
    assert |records| == |multiset(records)| == |multiset(records')| == |records'|;
    if records != [] {
      var n := |records| - 1;
      var x := records[n];
      assert records == records[..n] + [x];
      assert x in multiset(records) && x in multiset(records');
      var i :| 0 <= i < |records'| && records'[i] == x;
      WithoutOne(records', i);
      assert multiset(records[..n]) == multiset(records) - multiset{x};
      PassRemove(records', i, metric, guardrail);
      PassOfPermutation(records[..n], records'[..i] + records'[i + 1..], metric, guardrail);
    }
  }

  /** The summary depends on which observations there are, not on their order. */
  lemma SummaryIgnoresOrder(records: Rows, records': Rows, metric: string, guardrail: Option<string>)
    requires multiset(records) == multiset(records')
    ensures Summarize(records, metric, guardrail) == Summarize(records', metric, guardrail)
  {
    PassOfPermutation(records, records', metric, guardrail);
    FormsAgree(records, metric, guardrail);
    FormsAgree(records', metric, guardrail);
    SameEntities(records, records', metric);
  }

  lemma SameEntities(records: Rows, records': Rows, metric: string)
    requires multiset(records) == multiset(records')
    ensures JoinedEntities(OutcomeRows(records, metric)) == JoinedEntities(OutcomeRows(records', metric))
  {
    forall r
      ensures r in OutcomeRows(records, metric) <==> r in OutcomeRows(records', metric)
    {
      FilterMembers(records, (o: Observation) => IsOutcome(o, metric), r);
      FilterMembers(records', (o: Observation) => IsOutcome(o, metric), r);
      assert r in records <==> r in multiset(records);
      assert r in records' <==> r in multiset(records');
    }
  }
}
