/**
 * The experiment store (`InMemoryExperimentRepository`,
 * packages/db/src/adaptive-control-plane-repository.ts): lifecycle, sticky
 * assignments, observations. The JavaScript Maps are kept as sequences in
 * insertion order, the id of a record being its position.
 */
module Experiments {
  import opened Text
  import opened KeyIndex
  import Listing
  import Outbox
  import Evidence = EvidenceSummary

  datatype Status = Draft | Running | Paused | Concluded | Abandoned | Promoted | RolledBack

  datatype Experiment = Experiment(
    tenantId: string,
    experimentKey: string,
    metricName: string,
    status: Status,
    winner: Option<string>,
    startedAt: Option<int>,
    endedAt: Option<int>)

  datatype Assignment = Assignment(
    tenantId: string,
    experimentId: nat,
    entityType: string,
    entityId: string,
    variant: Evidence.Variant)

  type Observation = Evidence.Observation

  datatype Error = InvalidInput | NoExperiment | WrongStatus | IllegalTransition | AssignmentMismatch

  datatype Result<+T> = Ok(value: T) | Err(error: Error)

  // ── Keys ─────────────────────────────────────────────────────────────────

  function ExperimentKey(e: Experiment): string {
    Key(e.tenantId, e.experimentKey)
  }

  function EntityKey(tenantId: string, experimentId: nat, entityType: string, entityId: string): string {
    Key(tenantId, Decimal(experimentId) + [':'] + Joined(entityType, entityId))
  }

  function AssignmentKey(a: Assignment): string {
    EntityKey(a.tenantId, a.experimentId, a.entityType, a.entityId)
  }

  function ObservationKeyOf(tenantId: string, experimentId: nat, idempotencyKey: string): string {
    Key(tenantId, Decimal(experimentId) + [':'] + idempotencyKey)
  }

  function ObservationKey(o: Observation): string {
    ObservationKeyOf(o.tenantId, o.experimentId, o.idempotencyKey)
  }

  lemma DecimalHasNoColon(n: nat)
    ensures ':' !in Decimal(n)
  {
    var s := Decimal(n);
    assert forall i | 0 <= i < |s| :: IsDigit(s[i]);
  }

  /** An observation key names tenant, experiment and idempotency key. */
  lemma ObservationKeyInjective(t: string, e: nat, k: string, t': string, e': nat, k': string)
    requires Outbox.IsUuid(t) && Outbox.IsUuid(t') && ObservationKeyOf(t, e, k) == ObservationKeyOf(t', e', k')
    ensures t == t' && e == e' && k == k'
  {
    KeyInjective(t, Decimal(e) + [':'] + k, t', Decimal(e') + [':'] + k');
    DecimalHasNoColon(e);
    DecimalHasNoColon(e');
    JoinInjective(':', Decimal(e), k, Decimal(e'), k');
    DecimalInjective(e, e');
  }

  /** Two assignments have the same key exactly when they agree on tenant, experiment and joined entity text. */
  lemma SameEntityKey(a: Assignment, b: Assignment)
    requires Outbox.IsUuid(a.tenantId) && Outbox.IsUuid(b.tenantId)
    ensures AssignmentKey(a) == AssignmentKey(b) <==>
              && a.tenantId == b.tenantId && a.experimentId == b.experimentId
              && Joined(a.entityType, a.entityId) == Joined(b.entityType, b.entityId)
  {
    if AssignmentKey(a) == AssignmentKey(b) {
      ObservationKeyInjective(a.tenantId, a.experimentId, Joined(a.entityType, a.entityId),
                              b.tenantId, b.experimentId, Joined(b.entityType, b.entityId));
    }
  }

  // ── Lifecycle ────────────────────────────────────────────────────────────

  function Next(s: Status): set<Status> {
    match s
    case Draft => {Running, Abandoned}
    case Running => {Paused, Concluded, Abandoned}
    case Paused => {Running, Abandoned}
    case Concluded => {Promoted, Abandoned}
    case Abandoned => {}
    case Promoted => {RolledBack}
    case RolledBack => {}
  }

  function OrElse<T>(a: Option<T>, b: Option<T>): Option<T> {
    if a.Some? then a else b
  }

  function Moved(e: Experiment, to: Status, winner: Option<string>, endedAt: Option<int>, now: int): Experiment {
    e.(status := to,
       winner := OrElse(winner, e.winner),
       startedAt := if to.Running? then OrElse(e.startedAt, Some(now)) else e.startedAt,
       endedAt := if to.Concluded? || to.Abandoned? then OrElse(OrElse(endedAt, e.endedAt), Some(now)) else e.endedAt)
  }

  /** What the status says about the clock fields. */
  predicate Dated(e: Experiment) {
    && (e.status in {Running, Paused, Concluded, Promoted, RolledBack} ==> e.startedAt.Some?)
    && (e.status in {Concluded, Abandoned, Promoted, RolledBack} ==> e.endedAt.Some?)
  }

  /** Statuses from which one can come to another, in any number of moves. */
  predicate Reaches(from: Status, to: Status) {
    match from
    case Draft => true
    case Running => !to.Draft?
    case Paused => !to.Draft?
    case Concluded => to in {Concluded, Abandoned, Promoted, RolledBack}
    case Abandoned => to.Abandoned?
    case Promoted => to in {Promoted, RolledBack}
    case RolledBack => to.RolledBack?
  }

  // ── The store as a value ─────────────────────────────────────────────────

  datatype Store = Store(
    experiments: seq<Experiment>,
    experimentIdByKey: Index,
    assignments: seq<Assignment>,
    assignmentIdByEntity: Index,
    observations: seq<Observation>,
    observationIdByKey: Index)

  predicate Owned(s: Store, tenantId: string, id: nat) {
    id < |s.experiments| && s.experiments[id].tenantId == tenantId
  }

  function Created(s: Store, e: Experiment): Store {
    if ExperimentKey(e) in s.experimentIdByKey then s
    else s.(experiments := s.experiments + [e],
            experimentIdByKey := s.experimentIdByKey[ExperimentKey(e) := |s.experiments|])
  }

  function New(tenantId: string, key: string, metric: string, running: bool, startedAt: Option<int>,
               now: int): Experiment {
    Experiment(tenantId, key, metric, if running then Running else Draft, None,
               OrElse(startedAt, if running then Some(now) else None), None)
  }

  predicate Movable(s: Store, tenantId: string, id: nat, from: Status) {
    Owned(s, tenantId, id) && s.experiments[id].status == from
  }

  function Transitioned(s: Store, tenantId: string, id: nat, from: Status, to: Status,
                        winner: Option<string>, endedAt: Option<int>, now: int): Store
  {
    if to !in Next(from) || !Movable(s, tenantId, id, from) then s
    else s.(experiments := s.experiments[id := Moved(s.experiments[id], to, winner, endedAt, now)])
  }

  /** Tenant and entity as validation leaves them. */
  predicate ValidAssignment(a: Assignment) {
    match a
    case Assignment(tenantId, _, entityType, entityId, _) =>
      Outbox.IsUuid(tenantId) && NonEmptyText(entityType) && NonEmptyText(entityId)
  }

  predicate Assignable(s: Store, a: Assignment) {
    && ValidAssignment(a) && Owned(s, a.tenantId, a.experimentId)
    && s.experiments[a.experimentId].status in {Draft, Running}
  }

  function Assigned(s: Store, a: Assignment): Store {
    if !Assignable(s, a) || AssignmentKey(a) in s.assignmentIdByEntity then s
    else s.(assignments := s.assignments + [a],
            assignmentIdByEntity := s.assignmentIdByEntity[AssignmentKey(a) := |s.assignments|])
  }

  /** The assignment an observation claims is the one stored, variant included. */
  predicate FitsAssignment(s: Store, o: Observation) {
    o.assignmentId.Some? ==>
      && o.assignmentId.value < |s.assignments|
      && s.assignments[o.assignmentId.value]
         == Assignment(o.tenantId, o.experimentId, o.entityType, o.entityId, o.variant)
  }

  /** An observation as validation leaves it. */
  predicate ValidStored(o: Observation) {
    match o
    case Observation(_, tenantId, _, key, entityType, entityId, _, metric, _, _, confidence, _) =>
      && Outbox.IsUuid(tenantId) && NonEmptyText(key) && NonEmptyText(entityType) && NonEmptyText(entityId)
      && NonEmptyText(metric) && 0.0 <= confidence <= 1.0
  }

  predicate Observable(s: Store, o: Observation) {
    && ValidStored(o) && Owned(s, o.tenantId, o.experimentId)
    && s.experiments[o.experimentId].status in {Running, Concluded, Promoted, RolledBack}
    && FitsAssignment(s, o)
  }

  function Observed(s: Store, o: Observation): Store {
    if !Observable(s, o) || ObservationKey(o) in s.observationIdByKey then s
    else s.(observations := s.observations + [o],
            observationIdByKey := s.observationIdByKey[ObservationKey(o) := |s.observations|])
  }

  datatype Op =
    | CreateOp(tenantId: string, key: string, metric: string, running: bool, startedAt: Option<int>, now: int)
    | TransitionOp(tenantId: string, id: nat, from: Status, to: Status, winner: Option<string>, endedAt: Option<int>,
                   now: int)
    | AssignOp(assignment: Assignment)
    | ObserveOp(observation: Observation)

  function Do(s: Store, op: Op): Store {
    match op
    case CreateOp(t, key, metric, running, startedAt, now) => Created(s, New(t, key, metric, running, startedAt, now))
    case TransitionOp(t, id, from, to, winner, endedAt, now) => Transitioned(s, t, id, from, to, winner, endedAt, now)
    case AssignOp(a) => Assigned(s, a)
    case ObserveOp(o) => Observed(s, o)
  }

  function Run(s: Store, ops: seq<Op>): Store
    decreases |ops|
  {
    if ops == [] then s else Run(Do(s, ops[0]), ops[1..])
  }

  const Empty := Store([], map[], [], map[], [], map[])

  // ── Invariant ────────────────────────────────────────────────────────────

  function Keys<T>(records: seq<T>, key: T -> string): (keys: seq<string>)
    ensures |keys| == |records| && forall i | 0 <= i < |keys| :: keys[i] == key(records[i])
  {
    seq(|records|, i requires 0 <= i < |records| => key(records[i]))
  }

  ghost predicate Indexed(s: Store) {
    && Positions(s.experimentIdByKey, Keys(s.experiments, ExperimentKey))
    && Positions(s.assignmentIdByEntity, Keys(s.assignments, AssignmentKey))
    && Positions(s.observationIdByKey, Keys(s.observations, ObservationKey))
  }

  /** An observation belongs to an experiment of its tenant that has left the draft, and fits its assignment. */
  predicate GoodObservation(s: Store, o: Observation) {
    && ValidStored(o) && Owned(s, o.tenantId, o.experimentId)
    && !s.experiments[o.experimentId].status.Draft? && FitsAssignment(s, o)
  }

  ghost predicate Proper(s: Store) {
    match s
    case Store(experiments, _, assignments, _, observations, _) =>
      && (forall i | 0 <= i < |experiments| :: Dated(experiments[i]))
      && (forall i | 0 <= i < |assignments| ::
            ValidAssignment(assignments[i]) && Owned(s, assignments[i].tenantId, assignments[i].experimentId))
      && (forall i | 0 <= i < |observations| :: GoodObservation(s, observations[i]))
  }

  ghost predicate Sound(s: Store) {
    match s
    case Store(_, _, _, _, _, _) => Indexed(s) && Proper(s)
  }

  /** Nothing stored is lost, re-assigned or rewritten; an experiment only moves on. */
  ghost predicate Grows(s: Store, s': Store) {
    && s.assignments <= s'.assignments && s.observations <= s'.observations
    && |s.experiments| <= |s'.experiments|
    && forall i | 0 <= i < |s.experiments| ::
         && s'.experiments[i].tenantId == s.experiments[i].tenantId
         && s'.experiments[i].experimentKey == s.experiments[i].experimentKey
         && Reaches(s.experiments[i].status, s'.experiments[i].status)
         && (s.experiments[i].startedAt.Some? ==> s'.experiments[i].startedAt == s.experiments[i].startedAt)
  }

  lemma GrowthComposes(s: Store, s': Store, s'': Store)
    requires Grows(s, s') && Grows(s', s'')
    ensures Grows(s, s'')
  {
  }

  lemma CreateKeepsIndexed(s: Store, e: Experiment)
    requires Indexed(s) && ExperimentKey(e) !in s.experimentIdByKey
    ensures Indexed(Created(s, e))
  {
    AppendKeepsPositions(s.experimentIdByKey, Keys(s.experiments, ExperimentKey), ExperimentKey(e));
    assert Keys(s.experiments + [e], ExperimentKey) == Keys(s.experiments, ExperimentKey) + [ExperimentKey(e)];
  }

  lemma CreateKeepsSound(s: Store, e: Experiment)
    requires Sound(s) && Dated(e)
    ensures Sound(Created(s, e)) && Grows(s, Created(s, e))
  {
    if ExperimentKey(e) !in s.experimentIdByKey {
      CreateKeepsIndexed(s, e);
      ObservationsKeep(s, Created(s, e));
    }
  }

  lemma MovesAreGood(e: Experiment, to: Status, winner: Option<string>, endedAt: Option<int>, now: int)
    requires Dated(e) && to in Next(e.status)
    ensures var e' := Moved(e, to, winner, endedAt, now);
            Dated(e') && Reaches(e.status, to) && !to.Draft? && (e.startedAt.Some? ==> e'.startedAt == e.startedAt)
  {
  }

  /** Observations stay good when experiments only leave the draft and assignments are only added. */
  lemma ObservationsKeep(s: Store, s': Store)
    requires Proper(s) && s.assignments <= s'.assignments && |s.experiments| <= |s'.experiments|
    requires forall i | 0 <= i < |s.experiments| ::
               && s'.experiments[i].tenantId == s.experiments[i].tenantId
               && (s'.experiments[i].status.Draft? ==> s.experiments[i].status.Draft?)
    ensures forall i | 0 <= i < |s.observations| :: GoodObservation(s', s.observations[i])
  {
    forall i | 0 <= i < |s.observations|
      ensures GoodObservation(s', s.observations[i])
    {
      assert GoodObservation(s, s.observations[i]);
    }
  }

  lemma TransitionKeepsSound(s: Store, t: string, id: nat, from: Status, to: Status,
                             winner: Option<string>, endedAt: Option<int>, now: int)
    requires Sound(s)
    ensures Sound(Transitioned(s, t, id, from, to, winner, endedAt, now))
    ensures Grows(s, Transitioned(s, t, id, from, to, winner, endedAt, now))
  {
    if Movable(s, t, id, from) && to in Next(from) {
      MovesAreGood(s.experiments[id], to, winner, endedAt, now);
      ReplaceKeepsSound(s, id, Moved(s.experiments[id], to, winner, endedAt, now));
    }
  }

  lemma ReplaceKeepsSound(s: Store, id: nat, e: Experiment)
    requires Sound(s) && id < |s.experiments| && Dated(e) && !e.status.Draft?
    requires e.tenantId == s.experiments[id].tenantId && e.experimentKey == s.experiments[id].experimentKey
    ensures Sound(s.(experiments := s.experiments[id := e]))
  {
    var s' := s.(experiments := s.experiments[id := e]);
    assert Keys(s'.experiments, ExperimentKey) == Keys(s.experiments, ExperimentKey);
    ObservationsKeep(s, s');
  }

  lemma AssignKeepsIndexed(s: Store, a: Assignment)
    requires Indexed(s) && AssignmentKey(a) !in s.assignmentIdByEntity
    ensures Indexed(Assigned(s, a))
  {
    AppendKeepsPositions(s.assignmentIdByEntity, Keys(s.assignments, AssignmentKey), AssignmentKey(a));
    assert Keys(s.assignments + [a], AssignmentKey) == Keys(s.assignments, AssignmentKey) + [AssignmentKey(a)];
  }

  lemma AssignKeepsSound(s: Store, a: Assignment)
    requires Sound(s)
    ensures Sound(Assigned(s, a)) && Grows(s, Assigned(s, a))
  {
    if Assignable(s, a) && AssignmentKey(a) !in s.assignmentIdByEntity {
      AssignKeepsIndexed(s, a);
      ObservationsKeep(s, Assigned(s, a));
    }
  }

  lemma ObserveKeepsIndexed(s: Store, o: Observation)
    requires Indexed(s) && ObservationKey(o) !in s.observationIdByKey
    ensures Indexed(Observed(s, o))
  {
    AppendKeepsPositions(s.observationIdByKey, Keys(s.observations, ObservationKey), ObservationKey(o));
    assert Keys(s.observations + [o], ObservationKey) == Keys(s.observations, ObservationKey) + [ObservationKey(o)];
  }

  lemma ObserveKeepsSound(s: Store, o: Observation)
    requires Sound(s)
    ensures Sound(Observed(s, o)) && Grows(s, Observed(s, o))
  {
    if Observable(s, o) && ObservationKey(o) !in s.observationIdByKey {
      ObserveKeepsIndexed(s, o);
      ObservationsKeep(s, Observed(s, o));
    }
  }

  lemma DoKeepsSound(s: Store, op: Op)
    requires Sound(s)
    ensures Sound(Do(s, op)) && Grows(s, Do(s, op))
  {
    match op
    case CreateOp(t, key, metric, running, startedAt, now) =>
      CreateKeepsSound(s, New(t, key, metric, running, startedAt, now));
    case TransitionOp(t, id, from, to, winner, endedAt, now) =>
      TransitionKeepsSound(s, t, id, from, to, winner, endedAt, now);
    case AssignOp(a) => AssignKeepsSound(s, a);
    case ObserveOp(o) => ObserveKeepsSound(s, o);
  }

  lemma {:induction false} RunKeepsSound(s: Store, ops: seq<Op>)
    requires Sound(s)
    ensures Sound(Run(s, ops)) && Grows(s, Run(s, ops))
    decreases |ops|
  {
    if ops != [] {
      DoKeepsSound(s, ops[0]);
      RunKeepsSound(Do(s, ops[0]), ops[1..]);
      GrowthComposes(s, Do(s, ops[0]), Run(s, ops));
    }
  }

  /**
   * Over every sequence of calls: an experiment's status determines which of
   * its clock fields are set, no experiment with an observation is a draft,
   * and an observation that names an assignment has that assignment's variant.
   */
  lemma ReachableStoreIsSound(ops: seq<Op>, i: nat)
    ensures var s := Run(Empty, ops);
            && (i < |s.experiments| ==> Dated(s.experiments[i]))
            && (i < |s.assignments| ==> ValidAssignment(s.assignments[i]))
            && (i < |s.observations| ==>
                  && s.observations[i].experimentId < |s.experiments|
                  && !s.experiments[s.observations[i].experimentId].status.Draft?
                  && FitsAssignment(s, s.observations[i]))
  {
    RunKeepsSound(Empty, ops);
    var s := Run(Empty, ops);
    assert i < |s.observations| ==> GoodObservation(s, s.observations[i]);
  }

  // ── What calls can do to a status ────────────────────────────────────────

  /** Where a status is entered from. */
  predicate EnteredFrom(to: Status, from: Status) {
    match to
    case Draft => false
    case Running => from.Draft? || from.Paused?
    case Paused => from.Running?
    case Concluded => from.Running?
    case Abandoned => from.Draft? || from.Running? || from.Paused? || from.Concluded?
    case Promoted => from.Concluded?
    case RolledBack => from.Promoted?
  }

  /** One call can bring a stored experiment to another status exactly along the lifecycle. */
  lemma OneCallEnters(s: Store, id: nat, to: Status)
    requires Sound(s) && id < |s.experiments| && s.experiments[id].status != to
    ensures (exists op :: |Do(s, op).experiments| > id && Do(s, op).experiments[id].status == to)
            <==> EnteredFrom(to, s.experiments[id].status)
  {
    var e := s.experiments[id];
    if EnteredFrom(to, e.status) {
      MoveTo(s, id, e.status, to);
    }
    forall op | |Do(s, op).experiments| > id && Do(s, op).experiments[id].status == to
      ensures EnteredFrom(to, e.status)
    {
      CallMoves(s, op, id);
    }
  }

  lemma CallMoves(s: Store, op: Op, id: nat)
    requires id < |s.experiments|
    ensures |s.experiments| <= |Do(s, op).experiments|
    ensures var from, to := s.experiments[id].status, Do(s, op).experiments[id].status;
            to == from || EnteredFrom(to, from)
  {
    match op
    case TransitionOp(t, i, from, to, _, _, _) => EntriesAreMoves(from, to);
    case _ =>
  }

  lemma EntriesAreMoves(from: Status, to: Status)
    ensures EnteredFrom(to, from) <==> to in Next(from)
  {
  }

  lemma MoveTo(s: Store, id: nat, from: Status, to: Status)
    requires id < |s.experiments| && s.experiments[id].status == from && EnteredFrom(to, from)
    ensures var after := Do(s, TransitionOp(s.experiments[id].tenantId, id, from, to, None, None, 0));
            |after.experiments| == |s.experiments| && after.experiments[id].status == to
  {
    EntriesAreMoves(from, to);
  }

  /** A status before this one on the way from the draft. */
  function Before(to: Status): Status {
    match to
    case Draft => Draft
    case Running => Draft
    case Paused => Running
    case Concluded => Running
    case Abandoned => Draft
    case Promoted => Concluded
    case RolledBack => Promoted
  }

  function Distance(to: Status): nat {
    match to
    case Draft => 0
    case Running => 1
    case Paused => 2
    case Concluded => 2
    case Abandoned => 1
    case Promoted => 3
    case RolledBack => 4
  }

  lemma {:induction false} RunAppend(s: Store, ops: seq<Op>, op: Op)
    ensures Run(s, ops + [op]) == Do(Run(s, ops), op)
    decreases |ops|
  {
    if ops == [] {
      assert [op][1..] == [];
      assert Run(Do(s, op), []) == Do(s, op);
      assert ops + [op] == [op];
    } else {
      assert (ops + [op])[1..] == ops[1..] + [op];
      RunAppend(Do(s, ops[0]), ops[1..], op);
    }
  }

  lemma {:induction false} WalkTo(s: Store, id: nat, to: Status) returns (ops: seq<Op>)
    requires Sound(s) && id < |s.experiments| && Reaches(s.experiments[id].status, to)
    ensures |Run(s, ops).experiments| > id && Run(s, ops).experiments[id].status == to
    decreases Distance(to)
  {
    var from := s.experiments[id].status;
    if from == to {
      ops := [];
      return;
    }
    var at := if to.Abandoned? || to.Running? then from else Before(to);
    ops := [];
    if at != from {
      ops := WalkTo(s, id, at);
    }
    var s' := Run(s, ops);
    var op := TransitionOp(s'.experiments[id].tenantId, id, at, to, None, None, 0);
    MoveTo(s', id, at, to);
    RunAppend(s, ops, op);
    ops := ops + [op];
  }

  /** A stored experiment can come to a status, by any sequence of calls, exactly when the lifecycle leads there. */
  lemma AttainableIff(s: Store, id: nat, to: Status)
    requires Sound(s) && id < |s.experiments|
    ensures (exists ops :: |Run(s, ops).experiments| > id && Run(s, ops).experiments[id].status == to)
            <==> Reaches(s.experiments[id].status, to)
    ensures s.experiments[id].status.Draft? ==>
              exists ops :: |Run(s, ops).experiments| > id && Run(s, ops).experiments[id].status == to
  {
    if Reaches(s.experiments[id].status, to) {
      var ops := WalkTo(s, id, to);
    }
    forall ops | |Run(s, ops).experiments| > id && Run(s, ops).experiments[id].status == to
      ensures Reaches(s.experiments[id].status, to)
    {
      RunKeepsSound(s, ops);
    }
  }

  /** An assignment of another entity, experiment or variant is not the observation's. */
  predicate MisfitsAssignment(s: Store, o: Observation) {
    match o.assignmentId
    case None => false
    case Some(i) =>
      i >= |s.assignments|
      || s.assignments[i].tenantId != o.tenantId || s.assignments[i].experimentId != o.experimentId
      || s.assignments[i].entityType != o.entityType || s.assignments[i].entityId != o.entityId
      || s.assignments[i].variant != o.variant
  }

  /**
   * A valid observation under a new key is stored exactly when its tenant's
   * experiment has begun, is neither paused nor abandoned, and the assignment
   * it names is its own.
   */
  lemma ObservationIsStoredIff(s: Store, o: Observation)
    requires Sound(s) && ValidStored(o)
    requires forall i | 0 <= i < |s.observations| :: ObservationKey(s.observations[i]) != ObservationKey(o)
    ensures Do(s, ObserveOp(o)).observations == s.observations + [o] <==>
              && o.experimentId < |s.experiments| && s.experiments[o.experimentId].tenantId == o.tenantId
              && !s.experiments[o.experimentId].status.Draft? && !s.experiments[o.experimentId].status.Paused?
              && !s.experiments[o.experimentId].status.Abandoned? && !MisfitsAssignment(s, o)
  {
    var keys := Keys(s.observations, ObservationKey);
    assert ObservationKey(o) !in keys;
    assert |s.observations + [o]| != |s.observations|;
  }

  /** A valid assignment under a new key is stored exactly when its tenant's experiment has not gone past running. */
  lemma AssignmentIsStoredIff(s: Store, a: Assignment)
    requires Sound(s) && ValidAssignment(a)
    requires forall i | 0 <= i < |s.assignments| :: AssignmentKey(s.assignments[i]) != AssignmentKey(a)
    ensures Do(s, AssignOp(a)).assignments == s.assignments + [a] <==>
              && a.experimentId < |s.experiments| && s.experiments[a.experimentId].tenantId == a.tenantId
              && (s.experiments[a.experimentId].status.Draft? || s.experiments[a.experimentId].status.Running?)
  {
    var keys := Keys(s.assignments, AssignmentKey);
    assert AssignmentKey(a) !in keys;
    assert |s.assignments + [a]| != |s.assignments|;
  }

  /** A new experiment is stored at the end: running with a start time when it is created so, and otherwise a draft. */
  lemma CreationByFields(s: Store, t: string, key: string, metric: string, running: bool, startedAt: Option<int>,
                         now: int)
    requires Sound(s)
    requires forall i | 0 <= i < |s.experiments| ::
               s.experiments[i].tenantId != t || s.experiments[i].experimentKey != key
    requires Outbox.IsUuid(t) && forall i | 0 <= i < |s.experiments| :: Outbox.IsUuid(s.experiments[i].tenantId)
    ensures var after := Do(s, CreateOp(t, key, metric, running, startedAt, now)).experiments; var n := |s.experiments|;
            && |after| == n + 1 && after[..n] == s.experiments
            && after[n].tenantId == t && after[n].experimentKey == key && after[n].metricName == metric
            && (after[n].status.Running? <==> running) && (after[n].status.Draft? <==> !running)
            && after[n].winner.None? && after[n].endedAt.None?
            && (startedAt.Some? ==> after[n].startedAt == startedAt)
            && (startedAt.None? ==> after[n].startedAt == if running then Some(now) else None)
  {
    var e := New(t, key, metric, running, startedAt, now);
    if ExperimentKey(e) in s.experimentIdByKey {
      var i := s.experimentIdByKey[ExperimentKey(e)];
      assert Keys(s.experiments, ExperimentKey)[i] == ExperimentKey(e);
      KeyInjective(s.experiments[i].tenantId, s.experiments[i].experimentKey, t, key);
    }
  }

  /**
   * What an accepted move leaves: a winner and an end named by the call win
   * over the stored ones, a start is only ever filled in, and everything that
   * names the experiment stays.
   */
  lemma MoveChangesFields(s: Store, id: nat, to: Status, winner: Option<string>, endedAt: Option<int>, now: int)
    requires Sound(s) && id < |s.experiments| && EnteredFrom(to, s.experiments[id].status)
    ensures var e := s.experiments[id];
            var after := Do(s, TransitionOp(e.tenantId, id, e.status, to, winner, endedAt, now)).experiments;
            && |after| == |s.experiments|
            && after[..id] == s.experiments[..id] && after[id + 1..] == s.experiments[id + 1..]
            && after[id].status == to
            && after[id].tenantId == e.tenantId && after[id].experimentKey == e.experimentKey
            && after[id].metricName == e.metricName
            && (winner.Some? ==> after[id].winner == winner) && (winner.None? ==> after[id].winner == e.winner)
            && (e.startedAt.Some? || !to.Running? ==> after[id].startedAt == e.startedAt)
            && (e.startedAt.None? && to.Running? ==> after[id].startedAt == Some(now))
            && (!to.Concluded? && !to.Abandoned? ==> after[id].endedAt == e.endedAt)
            && (to.Concluded? || to.Abandoned? ==>
                  && (endedAt.Some? ==> after[id].endedAt == endedAt)
                  && (endedAt.None? && e.endedAt.Some? ==> after[id].endedAt == e.endedAt)
                  && (endedAt.None? && e.endedAt.None? ==> after[id].endedAt == Some(now)))
  {
  }

  /** One entity of one experiment. */
  predicate SameEntity(a: Assignment, b: Assignment) {
    && a.tenantId == b.tenantId && a.experimentId == b.experimentId
    && a.entityType == b.entityType && a.entityId == b.entityId
  }

  /** What `assign` hands back. */
  function AssignmentFor(s: Store, a: Assignment): Option<Assignment> {
    var k := AssignmentKey(a);
    if k in s.assignmentIdByEntity && s.assignmentIdByEntity[k] < |s.assignments|
    then Some(s.assignments[s.assignmentIdByEntity[k]])
    else None
  }

  /**
   * Assignments are sticky: once an entity has one, every later call for the
   * entity is answered with it, whichever variant is asked for and whatever
   * happened in between.
   */
  lemma AssignmentsAreSticky(s: Store, a: Assignment, ops: seq<Op>, again: Assignment)
    requires Sound(s) && Assignable(s, a) && SameEntity(a, again)
    ensures AssignmentFor(Do(s, AssignOp(a)), a).Some?
    ensures AssignmentFor(Run(Do(s, AssignOp(a)), ops), again) == AssignmentFor(Do(s, AssignOp(a)), a)
    ensures Do(Run(Do(s, AssignOp(a)), ops), AssignOp(again)) == Run(Do(s, AssignOp(a)), ops)
  {
    var s1 := Do(s, AssignOp(a));
    DoKeepsSound(s, AssignOp(a));
    RunKeepsSound(s1, ops);
    var s2 := Run(s1, ops);
    var i := s1.assignmentIdByEntity[AssignmentKey(a)];
    assert Keys(s1.assignments, AssignmentKey)[i] == AssignmentKey(a);
    assert Keys(s2.assignments, AssignmentKey)[i] == AssignmentKey(a);
  }

  /** Some other entity joins to the same text. */
  ghost predicate SharesText(a: Assignment) {
    JoinIsShared(a.entityType, a.entityId)
  }

  /** An entity whose joined text is its own is answered with its own assignment, found as by a scan. */
  lemma AnswerIsTheEntitys(s: Store, a: Assignment)
    requires Sound(s) && ValidAssignment(a) && !SharesText(a)
    ensures AssignmentFor(s, a).Some? <==> exists i :: 0 <= i < |s.assignments| && SameEntity(s.assignments[i], a)
    ensures AssignmentFor(s, a).Some? ==> SameEntity(AssignmentFor(s, a).value, a)
  {
    var keys := Keys(s.assignments, AssignmentKey);
    if AssignmentFor(s, a).Some? {
      var i := s.assignmentIdByEntity[AssignmentKey(a)];
      assert keys[i] == AssignmentKey(a);
      SameEntityKey(s.assignments[i], a);
    }
    if i :| 0 <= i < |s.assignments| && SameEntity(s.assignments[i], a) {
      assert keys[i] == AssignmentKey(a);
    }
  }

  /** Whoever is assigned next, the entity is answered with nothing or with its own assignment. */
  ghost predicate AnsweredRightly(s: Store, a: Assignment) {
    forall b | ValidAssignment(b) :: var r := AssignmentFor(Do(s, AssignOp(b)), a); r.Some? ==> SameEntity(r.value, a)
  }

  /**
   * Exactly when an entity without an assignment can be handed another
   * entity's: when its joined text can be cut at another colon.
   */
  lemma AnsweredRightlyIffUnshared(s: Store, a: Assignment)
    requires Sound(s) && Assignable(s, a) && AssignmentKey(a) !in s.assignmentIdByEntity
    ensures AnsweredRightly(s, a) <==>
              !exists j: nat :: j != |a.entityType| && CutsAt(Joined(a.entityType, a.entityId), j)
  {
    JoinIsSharedIff(a.entityType, a.entityId);
    if SharesText(a) {
      var t, i :| NonEmptyText(t) && NonEmptyText(i) && (t, i) != (a.entityType, a.entityId)
                  && Joined(t, i) == Joined(a.entityType, a.entityId);
      OtherEntityAnswers(s, a, a.(entityType := t, entityId := i));
    } else {
      UnsharedIsAnsweredRightly(s, a);
    }
  }

  lemma UnsharedIsAnsweredRightly(s: Store, a: Assignment)
    requires Sound(s) && ValidAssignment(a) && !SharesText(a)
    ensures AnsweredRightly(s, a)
  {
    forall b | ValidAssignment(b)
      ensures var r := AssignmentFor(Do(s, AssignOp(b)), a); r.Some? ==> SameEntity(r.value, a)
    {
      AssignKeepsSound(s, b);
      AnswerIsTheEntitys(Assigned(s, b), a);
    }
  }

  /** The entity that comes first takes the key of every entity with its text. */
  lemma OtherEntityAnswers(s: Store, a: Assignment, b: Assignment)
    requires ValidAssignment(a) && Assignable(s, b) && !SameEntity(a, b)
    requires AssignmentKey(a) !in s.assignmentIdByEntity
    requires a.tenantId == b.tenantId && a.experimentId == b.experimentId
    requires Joined(a.entityType, a.entityId) == Joined(b.entityType, b.entityId)
    ensures AssignmentFor(Do(s, AssignOp(b)), a) == Some(b) && !AnsweredRightly(s, a)
  {
    SameEntityKey(a, b);
    assert AssignmentFor(Do(s, AssignOp(b)), a) == Some(b);
  }

  // ── Observations ─────────────────────────────────────────────────────────

  /** `recordExperimentObservationParamsSchema`, on the fields kept here. */
  predicate ValidObservation(o: Observation) {
    && Outbox.IsUuid(o.tenantId) && Trim(o.idempotencyKey) != "" && Trim(o.entityType) != "" && Trim(o.entityId) != ""
    && Trim(o.metricName) != "" && 0.0 <= o.attributionConfidence <= 1.0
  }

  function Parsed(o: Observation): Observation {
    o.(idempotencyKey := Trim(o.idempotencyKey), entityType := Trim(o.entityType), entityId := Trim(o.entityId),
       metricName := Trim(o.metricName))
  }

  lemma ParsedIsValid(o: Observation)
    requires ValidObservation(o)
    ensures ValidStored(Parsed(o))
  {
    TrimTrims(o.idempotencyKey);
    TrimTrims(o.entityType);
    TrimTrims(o.entityId);
    TrimTrims(o.metricName);
  }

  /** What is summarised is of this tenant's experiment, and all of it. */
  lemma ObservationsAreTheExperiments(observations: seq<Observation>, tenantId: string, id: nat, o: Observation)
    ensures o in ObservationsOf(observations, tenantId, id) <==>
              o in observations && o.tenantId == tenantId && o.experimentId == id
  {
    Listing.FilterMembers(observations, (q: Observation) => q.tenantId == tenantId && q.experimentId == id, o);
  }

  /** So what is summarised has proper names, in every reachable store. */
  lemma StoredNamesAreProper(s: Store, tenantId: string, id: nat)
    requires Sound(s)
    ensures Evidence.StoredNames(ObservationsOf(s.observations, tenantId, id))
  {
    var rows := ObservationsOf(s.observations, tenantId, id);
    var keep := (o: Observation) => o.tenantId == tenantId && o.experimentId == id;
    forall i | 0 <= i < |rows|
      ensures NonEmptyText(rows[i].metricName)
    {
      Listing.FilterMembers(s.observations, keep, rows[i]);
      var j :| 0 <= j < |s.observations| && s.observations[j] == rows[i];
      assert GoodObservation(s, s.observations[j]);
    }
  }

  /** The observations of one experiment, in order. */
  function ObservationsOf(observations: seq<Observation>, tenantId: string, id: nat): seq<Observation> {
    Listing.Filter(observations, (o: Observation) => o.tenantId == tenantId && o.experimentId == id)
  }

  // ── Counting ─────────────────────────────────────────────────────────────

  datatype StatusCounts = StatusCounts(total: nat, byStatus: map<Status, nat>)

  predicate Counts(e: Experiment, tenantId: string, status: Status) {
    e.tenantId == tenantId && e.status == status
  }

  function CountOf(experiments: seq<Experiment>, tenantId: string, status: Status): nat {
    |Listing.Filter(experiments, (e: Experiment) => Counts(e, tenantId, status))|
  }

  function TotalOf(experiments: seq<Experiment>, tenantId: string): nat {
    |Listing.Filter(experiments, (e: Experiment) => e.tenantId == tenantId)|
  }

  lemma CountsAppend(experiments: seq<Experiment>, e: Experiment, tenantId: string, status: Status)
    ensures CountOf(experiments + [e], tenantId, status)
         == CountOf(experiments, tenantId, status) + (if Counts(e, tenantId, status) then 1 else 0)
    ensures TotalOf(experiments + [e], tenantId)
            == TotalOf(experiments, tenantId) + (if e.tenantId == tenantId then 1 else 0)
  {
    Evidence.FilterAppend(experiments, (x: Experiment) => Counts(x, tenantId, status), e);
    Evidence.FilterAppend(experiments, (x: Experiment) => x.tenantId == tenantId, e);
  }

  /** Every experiment of the tenant is counted under exactly one status. */
  lemma {:induction false} CountsSumToTotal(experiments: seq<Experiment>, t: string)
    ensures TotalOf(experiments, t)
         == CountOf(experiments, t, Draft) + CountOf(experiments, t, Running) + CountOf(experiments, t, Paused)
            + CountOf(experiments, t, Concluded) + CountOf(experiments, t, Abandoned)
            + CountOf(experiments, t, Promoted)
            + CountOf(experiments, t, RolledBack)
    decreases |experiments|
  {
    if experiments != [] {
      var n := |experiments| - 1;
      var e := experiments[n];
      assert experiments == experiments[..n] + [e];
      CountsSumToTotal(experiments[..n], t);
      CountsAppend(experiments[..n], e, t, Draft);
      CountsAppend(experiments[..n], e, t, Running);
      CountsAppend(experiments[..n], e, t, Paused);
      CountsAppend(experiments[..n], e, t, Concluded);
      CountsAppend(experiments[..n], e, t, Abandoned);
      CountsAppend(experiments[..n], e, t, Promoted);
      CountsAppend(experiments[..n], e, t, RolledBack);
    }
  }

  // ── The class ────────────────────────────────────────────────────────────

  class InMemoryExperimentRepository {
    var experiments: seq<Experiment>
    var experimentIdByKey: Index
    var assignments: seq<Assignment>
    var assignmentIdByEntity: Index
    var observations: seq<Observation>
    var observationIdByKey: Index

    ghost function Contents(): Store
      reads this
    {
      Store(experiments, experimentIdByKey, assignments, assignmentIdByEntity, observations, observationIdByKey)
    }

    ghost predicate Valid()
      reads this
    {
      Sound(Contents())
    }

    constructor ()
      ensures Valid() && Contents() == Empty
    {
      experiments, experimentIdByKey := [], map[];
      assignments, assignmentIdByEntity := [], map[];
      observations, observationIdByKey := [], map[];
    }

    method Create(tenantId: string, key: string, metric: string, running: bool, startedAt: Option<int>, now: int)
      returns (r: Result<nat>)
      requires Valid()
      modifies this
      ensures Valid()
      ensures r.Err? <==> !Outbox.IsUuid(tenantId) || Trim(key) == "" || Trim(metric) == ""
      ensures r.Err? ==> Contents() == old(Contents())
      ensures r.Ok? ==>
                && Contents()
                   == Do(old(Contents()), CreateOp(tenantId, Trim(key), Trim(metric), running, startedAt, now))
                && r.value < |experiments| && ExperimentKey(experiments[r.value]) == Key(tenantId, Trim(key))
    {
      var parsedKey, parsedMetric := Trim(key), Trim(metric);
      if !Outbox.IsUuid(tenantId) || parsedKey == "" || parsedMetric == "" {
        return Err(InvalidInput);
      }
      var record := New(tenantId, parsedKey, parsedMetric, running, startedAt, now);
      CreateKeepsSound(Contents(), record);
      var k := Key(tenantId, parsedKey);
      if k in experimentIdByKey {
        assert Keys(experiments, ExperimentKey)[experimentIdByKey[k]] == k;
        return Ok(experimentIdByKey[k]);
      }
      experimentIdByKey := experimentIdByKey[k := |experiments|];
      experiments := experiments + [record];
      return Ok(|experiments| - 1);
    }

    /** None is the null of a run that was not found in `from`. */
    method Transition(tenantId: string, id: nat, from: Status, to: Status, winner: Option<string>, endedAt: Option<int>,
                      now: int)
      returns (r: Result<Option<Experiment>>)
      requires Valid()
      modifies this
      ensures Valid()
      ensures !Outbox.IsUuid(tenantId) ==> r == Err(InvalidInput) && Contents() == old(Contents())
      ensures Outbox.IsUuid(tenantId) ==>
                && Contents() == Do(old(Contents()), TransitionOp(tenantId, id, from, to, winner, endedAt, now))
                && (r == Err(IllegalTransition) <==> to !in Next(from))
                && (r.Ok? && r.value.Some? <==> to in Next(from) && Movable(old(Contents()), tenantId, id, from))
                && (r.Ok? && r.value.Some? ==> r.value.value == experiments[id] && experiments[id].status == to)
    {
      if !Outbox.IsUuid(tenantId) {
        return Err(InvalidInput);
      }
      r := MoveAlong(tenantId, id, from, to, winner, endedAt, now);
    }

    method MoveAlong(tenantId: string, id: nat, from: Status, to: Status, winner: Option<string>, endedAt: Option<int>,
                     now: int) returns (r: Result<Option<Experiment>>)
      requires Valid()
      modifies this
      ensures Valid() && Contents() == Transitioned(old(Contents()), tenantId, id, from, to, winner, endedAt, now)
      ensures r == Err(IllegalTransition) <==> to !in Next(from)
      ensures r.Ok? && r.value.Some? <==> to in Next(from) && Movable(old(Contents()), tenantId, id, from)
      ensures r.Ok? && r.value.Some? ==> r.value.value == experiments[id] && experiments[id].status == to
    {
      if to !in Next(from) {
        return Err(IllegalTransition);
      }
      var moved := Move(tenantId, id, from, to, winner, endedAt, now);
      return Ok(moved);
    }

    method Move(tenantId: string, id: nat, from: Status, to: Status, winner: Option<string>, endedAt: Option<int>,
                now: int)
      returns (r: Option<Experiment>)
      requires Valid() && to in Next(from)
      modifies this
      ensures Valid() && Contents() == Transitioned(old(Contents()), tenantId, id, from, to, winner, endedAt, now)
      ensures r.Some? <==> Movable(old(Contents()), tenantId, id, from)
      ensures r.Some? ==> r.value == experiments[id] && experiments[id].status == to
    {
      if id >= |experiments| || experiments[id].tenantId != tenantId || experiments[id].status != from {
        return None;
      }
      var updated := Moved(experiments[id], to, winner, endedAt, now);
      TransitionKeepsSound(Contents(), tenantId, id, from, to, winner, endedAt, now);
      Put(id, updated);
      return Some(updated);
    }

    method Put(id: nat, e: Experiment)
      requires id < |experiments| && Sound(Contents().(experiments := experiments[id := e]))
      modifies this`experiments
      ensures Valid() && experiments == old(experiments[id := e])
    {
      experiments := experiments[id := e];
    }

    /** The flag says whether the assignment was there before. */
    method Assign(a: Assignment) returns (r: Result<(Assignment, bool)>)
      requires Valid()
      modifies this
      ensures Valid()
      ensures var p := a.(entityType := Trim(a.entityType), entityId := Trim(a.entityId));
              if !Outbox.IsUuid(a.tenantId) || p.entityType == "" || p.entityId == "" then
                r == Err(InvalidInput) && Contents() == old(Contents())
              else
                && Contents() == Do(old(Contents()), AssignOp(p))
                && (r.Ok? <==> Assignable(old(Contents()), p))
                && (r.Ok? ==> AssignmentFor(Contents(), p) == Some(r.value.0))
                && (r.Ok? ==> (r.value.1 <==> AssignmentKey(p) in old(assignmentIdByEntity)))
    {
      var p := a.(entityType := Trim(a.entityType), entityId := Trim(a.entityId));
      if !Outbox.IsUuid(a.tenantId) || p.entityType == "" || p.entityId == "" {
        return Err(InvalidInput);
      }
      TrimTrims(a.entityType);
      TrimTrims(a.entityId);
      r := AssignValid(p);
    }

    method AssignValid(p: Assignment) returns (r: Result<(Assignment, bool)>)
      requires Valid() && ValidAssignment(p)
      modifies this
      ensures Valid() && Contents() == Assigned(old(Contents()), p) && r != Err(InvalidInput)
      ensures r.Ok? <==> Assignable(old(Contents()), p)
      ensures r.Ok? ==> AssignmentFor(Contents(), p) == Some(r.value.0)
      ensures r.Ok? ==> (r.value.1 <==> AssignmentKey(p) in old(assignmentIdByEntity))
    {
      if p.experimentId >= |experiments| || experiments[p.experimentId].tenantId != p.tenantId {
        return Err(NoExperiment);
      }
      if experiments[p.experimentId].status != Draft && experiments[p.experimentId].status != Running {
        return Err(WrongStatus);
      }
      AssignKeepsSound(Contents(), p);
      var k := AssignmentKey(p);
      if k in assignmentIdByEntity {
        return Ok((assignments[assignmentIdByEntity[k]], true));
      }
      AddAssignment(p);
      return Ok((p, false));
    }

    method AddAssignment(p: Assignment)
      requires Sound(Contents().(assignments := assignments + [p],
                                 assignmentIdByEntity := assignmentIdByEntity[AssignmentKey(p) := |assignments|]))
      modifies this`assignments, this`assignmentIdByEntity
      ensures Valid() && assignments == old(assignments) + [p]
      ensures assignmentIdByEntity == old(assignmentIdByEntity)[AssignmentKey(p) := |old(assignments)|]
    {
      assignmentIdByEntity := assignmentIdByEntity[AssignmentKey(p) := |assignments|];
      assignments := assignments + [p];
    }

    /** Why the source would throw on validated input, if it would. */
    method Refusal(o: Observation) returns (r: Option<Error>)
      requires ValidStored(o)
      ensures r.None? <==> Observable(Contents(), o)
      ensures r == Some(NoExperiment) <==> !Owned(Contents(), o.tenantId, o.experimentId)
      ensures r == Some(AssignmentMismatch) ==> !FitsAssignment(Contents(), o)
      ensures r.Some? ==> r.value in {NoExperiment, WrongStatus, AssignmentMismatch}
    {
      if o.experimentId >= |experiments| || experiments[o.experimentId].tenantId != o.tenantId {
        return Some(NoExperiment);
      }
      var status := experiments[o.experimentId].status;
      if status != Running && status != Concluded && status != Promoted && status != RolledBack {
        return Some(WrongStatus);
      }
      if o.assignmentId.Some? {
        if o.assignmentId.value >= |assignments|
           || assignments[o.assignmentId.value]
              != Assignment(o.tenantId, o.experimentId, o.entityType, o.entityId, o.variant)
        {
          return Some(AssignmentMismatch);
        }
      }
      return None;
    }

    /** Stored once under its key, trimmed, or refused with a reason. */
    method RecordObservation(o: Observation) returns (r: Result<Observation>)
      requires Valid()
      modifies this
      ensures Valid()
      ensures r == Err(InvalidInput) <==> !ValidObservation(o)
      ensures !ValidObservation(o) ==> Contents() == old(Contents())
      ensures ValidObservation(o) ==>
                && Contents() == Do(old(Contents()), ObserveOp(Parsed(o)))
                && (r.Ok? <==> Observable(old(Contents()), Parsed(o)))
      ensures r.Ok? ==> r.value in observations && ObservationKey(r.value) == ObservationKey(Parsed(o))
    {
      if !ValidObservation(o) {
        return Err(InvalidInput);
      }
      ParsedIsValid(o);
      r := Append(Parsed(o));
    }

    method Append(o: Observation) returns (r: Result<Observation>)
      requires Valid() && ValidStored(o)
      modifies this
      ensures Valid() && Contents() == Observed(old(Contents()), o)
      ensures (r.Ok? <==> Observable(old(Contents()), o)) && r != Err(InvalidInput)
      ensures r.Ok? ==> r.value in observations && ObservationKey(r.value) == ObservationKey(o)
    {
      var refusal := Refusal(o);
      if refusal.Some? {
        return Err(refusal.value);
      }
      var kept := Keep(o);
      return Ok(kept);
    }

    /** The observation stored under this key, the first one. */
    method Keep(o: Observation) returns (r: Observation)
      requires Valid() && Observable(Contents(), o)
      modifies this
      ensures Valid() && Contents() == Observed(old(Contents()), o)
      ensures r in observations && ObservationKey(r) == ObservationKey(o)
    {
      ObserveKeepsSound(Contents(), o);
      var k := ObservationKey(o);
      if k in observationIdByKey {
        assert Keys(observations, ObservationKey)[observationIdByKey[k]] == k;
        return observations[observationIdByKey[k]];
      }
      Add(o);
      return o;
    }

    method Add(o: Observation)
      requires Sound(Contents().(observations := observations + [o],
                                 observationIdByKey := observationIdByKey[ObservationKey(o) := |observations|]))
      modifies this`observations, this`observationIdByKey
      ensures Valid() && observations == old(observations) + [o]
      ensures observationIdByKey == old(observationIdByKey)[ObservationKey(o) := |old(observations)|]
    {
      observationIdByKey := observationIdByKey[ObservationKey(o) := |observations|];
      observations := observations + [o];
    }

    /** The summary of this experiment's observations and of no others. */
    method SummarizeEvidence(tenantId: string, id: nat, metric: string, guardrail: Option<string>)
      returns (r: Option<Evidence.Summary>)
      requires Valid()
      ensures !Owned(Contents(), tenantId, id) ==> r == None
      ensures Owned(Contents(), tenantId, id) ==>
                r == Evidence.Summarize(ObservationsOf(observations, tenantId, id), metric, guardrail)
    {
      if id >= |experiments| || experiments[id].tenantId != tenantId {
        return None;
      }
      return Evidence.Summarize(ObservationsOf(observations, tenantId, id), metric, guardrail);
    }

    /** One loop over the experiments; the counts by status add up to the total. */
    method GetSummary(tenantId: string) returns (r: StatusCounts)
      ensures r.total == TotalOf(experiments, tenantId)
      ensures forall st: Status :: st in r.byStatus && r.byStatus[st] == CountOf(experiments, tenantId, st)
      ensures r.total == r.byStatus[Draft] + r.byStatus[Running] + r.byStatus[Paused] + r.byStatus[Concluded]
                         + r.byStatus[Abandoned] + r.byStatus[Promoted] + r.byStatus[RolledBack]
    {
      var total: nat := 0;
      var byStatus: map<Status, nat> := map[Draft := 0, Running := 0, Paused := 0, Concluded := 0, Abandoned := 0,
                                            Promoted := 0, RolledBack := 0];
      var i := 0;
      forall st: Status
        ensures st in byStatus && byStatus[st] == 0
      {
        match st
        case Draft => case Running => case Paused => case Concluded =>
        case Abandoned => case Promoted => case RolledBack =>
      }
      while i < |experiments|
        invariant i <= |experiments|
        invariant total == TotalOf(experiments[..i], tenantId)
        invariant forall st: Status :: st in byStatus && byStatus[st] == CountOf(experiments[..i], tenantId, st)
      {
        var record := experiments[i];
        assert experiments[..i + 1] == experiments[..i] + [record];
        forall st: Status {
          CountsAppend(experiments[..i], record, tenantId, st);
        }
        CountsAppend(experiments[..i], record, tenantId, record.status);
        i := i + 1;
        if record.tenantId != tenantId {
          continue;
        }
        total := total + 1;
        byStatus := byStatus[record.status := byStatus[record.status] + 1];
      }
      assert experiments[..i] == experiments;
      CountsSumToTotal(experiments, tenantId);
      return StatusCounts(total, byStatus);
    }
  }
}
