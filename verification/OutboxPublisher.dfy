/**
 * The publish loop (`publishPendingForTenant`, `persistOperationalState`,
 * `dispatchN8nAction`, apps/worker-outbox-publisher/src/outbox-publisher.ts),
 * over the external-action repository and the outbox. At every await other
 * workers may claim, call, report and mark, callbacks and new actions may
 * arrive. Every execution, faults included, is proved to be a run of
 * `DispatchProtocol`. Effects of the publisher outside the two repositories
 * are journalled in the order in which they happen.
 */
module OutboxPublisher {
  import opened Text
  import opened Outbox
  import opened DispatchProtocol
  import opened DispatchStore
  import opened PublisherRuns
  import opened PublisherTurns
  import EA = ExternalActions
  import Repo = ExternalActionsRepository
  import StableJson
  import Steps

  datatype Effect =
    | IncidentSaved(row: nat)
    | HealthSaved(row: nat)
    | Published(row: nat)
    | ActionSettled(row: nat)
    | RowConsumed(row: nat)

  // ── Specification of one batch ───────────────────────────────────────────

  /** Operational state to be saved before a row may leave. */
  function Saves(c: Config, r: PRow): seq<Effect> {
    match r.payload
    case IncidentPayload(_) => if c.incidentsConfigured then [IncidentSaved(r.id)] else []
    case DeadLetterPayload(_) =>
      (if c.incidentsConfigured then [IncidentSaved(r.id)] else [])
      + (if c.healthConfigured then [HealthSaved(r.id)] else [])
    case _ => []
  }

  /** The effects of a row that goes through. */
  function Trail(c: Config, r: PRow): seq<Effect> {
    Saves(c, r) + [if r.payload.DispatchPayload? then ActionSettled(r.id) else Published(r.id)] + [RowConsumed(r.id)]
  }

  function Trails(c: Config, rows: seq<PRow>, fates: seq<Fate>): seq<Effect>
    requires |rows| == |fates|
  {
    if rows == [] then []
    else
      var n := |rows| - 1;
      Trails(c, rows[..n], fates[..n]) + (if fates[n].WasConsumed? then Trail(c, rows[n]) else [])
  }

  /** The rows this batch consumed. */
  function ConsumedIds(rows: seq<PRow>, fates: seq<Fate>): set<nat>
    requires |fates| <= |rows|
  {
    set j | 0 <= j < |fates| && fates[j].WasConsumed? :: rows[j].id
  }

  function Consumptions(fates: seq<Fate>): nat {
    if fates == [] then 0
    else Consumptions(fates[..|fates| - 1]) + (if fates[|fates| - 1].WasConsumed? then 1 else 0)
  }

  /** A consumed dispatch row's action is settled. */
  ghost predicate SettledFor(store: Repo.Cells, r: PRow) {
    r.payload.DispatchPayload? ==> r.payload.request.Some? && SettledNamed(store, r.payload.request.value)
  }

  lemma SettledForAdvances(before: Repo.Cells, after: Repo.Cells, r: PRow)
    requires StoreAdvances(before, after) && SettledFor(before, r)
    ensures SettledFor(after, r)
  {
    if r.payload.DispatchPayload? {
      var q := r.payload.request.value;
      var id :| id in before && EA.IsSettled(before[id].action.state) && Fits(before[id], q);
      assert id in after && EA.IsSettled(after[id].action.state) && Fits(after[id], q);
    }
  }

  ghost predicate Accounted(store: Repo.Cells, r: PRow, f: Fate) {
    match f
    case WasConsumed => SettledFor(store, r)
    case WasDeferred => r.payload.DispatchPayload?
    case ThrewUp => false
  }

  /** A batch: the rows listed from a log. */
  datatype Batch = Batch(log: seq<PRow>, rows: seq<PRow>)

  /**
   * The first rows of a batch have been handled, with these fates and this
   * count; no row of the log has changed but those this batch consumed and
   * those others marked meanwhile.
   */
  ghost predicate Handled(b: Batch, fates: seq<Fate>, count: nat, log: seq<PRow>, store: Repo.Cells, theirs: set<nat>) {
    match b
    case Batch(before, rows) =>
      && |fates| <= |rows| && LogMoves(before, log, theirs + ConsumedIds(rows, fates))
      && count == Consumptions(fates) && AllAccounted(store, rows, fates)
  }

  ghost predicate AllAccounted(store: Repo.Cells, rows: seq<PRow>, fates: seq<Fate>)
    requires |fates| <= |rows|
  {
    forall j | 0 <= j < |fates| :: Accounted(store, rows[j], fates[j])
  }

  /** The journal of a batch; an exception may leave a part of the next row's trail. */
  ghost predicate Journalled(c: Config, rows: seq<PRow>, fates: seq<Fate>, threw: bool, before: seq<Effect>,
                             after: seq<Effect>)
    requires |fates| <= |rows| && (threw ==> |fates| < |rows|)
  {
    var done := before + Trails(c, rows[..|fates|], fates);
    if threw then done <= after && after < done + Trail(c, rows[|fates|]) else after == done
  }

  // ── What a journal of trails guarantees ──────────────────────────────────

  /** The row at position j of the batch accounts for the entry at position k of the journal. */
  ghost predicate Justified(c: Config, row: PRow, journal: seq<Effect>, k: nat)
    requires k < |journal|
  {
    && journal[k] == RowConsumed(row.id)
    && k > 0 && journal[k - 1] == (if row.payload.DispatchPayload? then ActionSettled(row.id) else Published(row.id))
    && (c.incidentsConfigured && (row.payload.IncidentPayload? || row.payload.DeadLetterPayload?) ==>
          exists m | 0 <= m < k :: journal[m] == IncidentSaved(row.id))
  }

  /**
   * Every consumption in a batch's journal belongs to a consumed row, comes
   * straight after that row was published or its action settled, and after its
   * incident record where it has one.
   */
  lemma {:induction false} ConsumptionIsJustified(c: Config, rows: seq<PRow>, fates: seq<Fate>, k: nat)
    requires |rows| == |fates| && k < |Trails(c, rows, fates)| && Trails(c, rows, fates)[k].RowConsumed?
    ensures exists j | 0 <= j < |rows| :: fates[j].WasConsumed? && Justified(c, rows[j], Trails(c, rows, fates), k)
    decreases |rows|
  {
    var n := |rows| - 1;
    var front := Trails(c, rows[..n], fates[..n]);
    var all := Trails(c, rows, fates);
    if k < |front| {
      ConsumptionIsJustified(c, rows[..n], fates[..n], k);
      var j :| 0 <= j < n && fates[..n][j].WasConsumed? && Justified(c, rows[..n][j], front, k);
      assert forall m | 0 <= m <= k :: all[m] == front[m];
      assert fates[j].WasConsumed? && Justified(c, rows[j], all, k);
    } else {
      var trail := Trail(c, rows[n]);
      assert all == front + trail;
      assert forall m | 0 <= m < |trail| :: all[|front| + m] == trail[m];
      TrailEndsWithConsumption(c, rows[n]);
      if c.incidentsConfigured && (rows[n].payload.IncidentPayload? || rows[n].payload.DeadLetterPayload?) {
        assert all[|front|] == IncidentSaved(rows[n].id);
      }
      assert Justified(c, rows[n], all, k);
    }
  }

  lemma TrailEndsWithConsumption(c: Config, r: PRow)
    ensures var t := Trail(c, r);
            && |t| >= 2 && (forall m | 0 <= m < |t| :: t[m].RowConsumed? <==> m == |t| - 1)
            && t[|t| - 1] == RowConsumed(r.id)
            && t[|t| - 2] == (if r.payload.DispatchPayload? then ActionSettled(r.id) else Published(r.id))
            && (c.incidentsConfigured && (r.payload.IncidentPayload? || r.payload.DeadLetterPayload?) ==>
                  t[0] == IncidentSaved(r.id) && |t| >= 3)
  {
  }

  // ── When nobody else acts ────────────────────────────────────────────────

  /** The rows of the earlier log that were consumed since. */
  function NewlyConsumed(before: seq<PRow>, after: seq<PRow>): set<nat>
    requires |before| <= |after|
  {
    set i | 0 <= i < |before| && before[i].consumedAt.None? && after[i].consumedAt.Some? :: i + 1
  }

  lemma ConsumedIdsNext(rows: seq<PRow>, fates: seq<Fate>, fate: Fate)
    requires |fates| < |rows|
    ensures ConsumedIds(rows, fates + [fate])
         == ConsumedIds(rows, fates) + (if fate.WasConsumed? then {rows[|fates|].id} else {})
    ensures Consumptions(fates + [fate]) == Consumptions(fates) + (if fate.WasConsumed? then 1 else 0)
  {
    var n, all := |fates|, fates + [fate];
    assert all[..n] == fates;
    forall id | id in ConsumedIds(rows, fates)
      ensures id in ConsumedIds(rows, all)
    {
      var j :| 0 <= j < n && fates[j].WasConsumed? && rows[j].id == id;
      assert all[j].WasConsumed?;
    }
    if fate.WasConsumed? {
      assert all[n].WasConsumed?;
    }
  }

  lemma {:induction false} CountOfIds(rows: seq<PRow>, fates: seq<Fate>)
    requires |fates| <= |rows| && Increasing(rows)
    ensures |ConsumedIds(rows, fates)| == Consumptions(fates)
    decreases |fates|
  {
    if fates != [] {
      var n := |fates| - 1;
      assert fates == fates[..n] + [fates[n]];
      CountOfIds(rows, fates[..n]);
      ConsumedIdsNext(rows, fates[..n], fates[n]);
      assert forall j | 0 <= j < n :: rows[j].id < rows[n].id;
      assert rows[n].id !in ConsumedIds(rows, fates[..n]);
    }
  }

  /** Left alone, a batch newly consumes exactly its consumed rows, and the count it reports is their number. */
  lemma QuietCount(b: Batch, fates: seq<Fate>, count: nat, log: seq<PRow>, store: Repo.Cells)
    requires GoodBatch(b.log, b.rows) && Handled(b, fates, count, log, store, {})
    ensures NewlyConsumed(b.log, log) == ConsumedIds(b.rows, fates) && |NewlyConsumed(b.log, log)| == count
  {
    var ids := ConsumedIds(b.rows, fates);
    assert {} + ids == ids;
    CountOfIds(b.rows, fates);
    forall id | id in ids
      ensures id in NewlyConsumed(b.log, log)
    {
      var j :| 0 <= j < |fates| && fates[j].WasConsumed? && b.rows[j].id == id;
      assert b.log[id - 1] == b.rows[j];
    }
  }

  /** The batch lists rows of the log, unconsumed, each once. */
  ghost predicate GoodBatch(log: seq<PRow>, rows: seq<PRow>) {
    && (forall j | 0 <= j < |rows| ::
          1 <= rows[j].id <= |log| && log[rows[j].id - 1] == rows[j] && rows[j].consumedAt.None?)
    && Increasing(rows)
  }

  lemma ListedIsPending(log: seq<PRow>, tenantId: string, limit: nat, j: nat)
    requires WellFormed(log) && j < |Unconsumed(log, tenantId, limit)|
    ensures var row := Unconsumed(log, tenantId, limit)[j];
            1 <= row.id <= |log| && log[row.id - 1] == row && row.consumedAt.None?
  {
    var row := Unconsumed(log, tenantId, limit)[j];
    UnconsumedIsOrderedPrefix(log, tenantId, limit, row);
    var i :| 0 <= i < |log| && log[i] == row;
  }

  lemma ListedRowsAreDistinctPending(log: seq<PRow>, tenantId: string, limit: nat)
    requires WellFormed(log)
    ensures GoodBatch(log, Unconsumed(log, tenantId, limit))
  {
    var rows := Unconsumed(log, tenantId, limit);
    forall j | 0 <= j < |rows|
      ensures 1 <= rows[j].id <= |log| && log[rows[j].id - 1] == rows[j] && rows[j].consumedAt.None?
    {
      ListedIsPending(log, tenantId, limit, j);
    }
    if rows != [] {
      UnconsumedIsOrderedPrefix(log, tenantId, limit, rows[0]);
    }
  }

  lemma JournalGoesOn(c: Config, rows: seq<PRow>, fates: seq<Fate>, fate: Fate,
                      start: seq<Effect>, before: seq<Effect>, after: seq<Effect>)
    requires |fates| < |rows| && Journalled(c, rows, fates, false, start, before)
    requires after == before + (if fate.WasConsumed? then Trail(c, rows[|fates|]) else [])
    ensures Journalled(c, rows, fates + [fate], false, start, after)
  {
    var n := |fates|;
    assert rows[..n + 1][..n] == rows[..n] && (fates + [fate])[..n] == fates;
    assert after == start + (Trails(c, rows[..n], fates) + (if fate.WasConsumed? then Trail(c, rows[n]) else []));
  }

  // ── The publisher ────────────────────────────────────────────────────────

  /** Nobody else acts in this worker's name. */
  ghost predicate OthersOnly(world: World, w: nat) {
    forall a: Await, d | d in world.others(a) && d.Deed? :: !ByWorker(d.step, w)
  }

  /** The effects of a row that was sent this way. */
  predicate Tells(fate: Fate, sent: Effect, n: nat, told: seq<Effect>) {
    match fate
    case WasConsumed => told == [sent] + [RowConsumed(n)]
    case WasDeferred => told == []
    case ThrewUp => told == [] || told == [sent]
  }

  function DispatchTold(n: nat, way: Way, world: World): seq<Effect> {
    if !FateOf(way).WasConsumed? then []
    else if world.consume then [ActionSettled(n)] + [RowConsumed(n)]
    else [ActionSettled(n)]
  }

  lemma DispatchTells(n: nat, way: Way, world: World)
    ensures Tells(FinalFate(way, world), ActionSettled(n), n, DispatchTold(n, way, world))
  {
  }

  ghost predicate IsQuiet(world: World) {
    forall a: Await :: world.others(a) == []
  }

  /** The row was listed from this log, which may have moved on since. */
  predicate IsListed(row: PRow, log: PLog) {
    1 <= row.id <= |log| && SameRow(row, log[row.id - 1])
  }

  /** The row is in the outbox, and asks for this action. */
  ghost predicate IsReady(row: PRow, i: nat, cells: Repo.Cells, log: PLog) {
    && 1 <= row.id <= |log| && log[row.id - 1].identity.tenantId == row.identity.tenantId
    && i in cells && Asks(log[row.id - 1].payload, cells[i])
  }

  lemma StaysListed(row: PRow, log: PLog, log': PLog, ids: set<nat>)
    requires IsListed(row, log) && LogMoves(log, log', ids)
    ensures IsListed(row, log')
  {
    assert row.id in ids ==> SameRow(log[row.id - 1], log'[row.id - 1]);
  }

  ghost predicate Starts(from: Snap, row: PRow) {
    Holds(from.s, from.cells, from.log) && IsListed(row, from.log)
  }

  /** The action the row asks for was stored when the row was listed, and is the one its ids still name. */
  lemma FoundAgain(cells: Repo.Cells, log: PLog, row: PRow, q: DispatchIds, later: Repo.Cells, i: nat)
    requires RowsHaveActions(cells, log) && IsListed(row, log) && row.payload == DispatchPayload(Some(q))
    requires StoreAdvances(cells, later) && UniqueNames(later) && i in later && Fits(later[i], q)
    ensures i in cells && Fits(cells[i], q)
  {
    assert IsRequest(log[row.id - 1].payload);
    var x :| x in cells && Fits(cells[x], q);
    assert x in later && Fits(later[x], q) && SameName(later[i], later[x]);
  }

  /** Listing the action a granted, deferred or settled claim names, and the claim. */
  lemma ClaimsListed(s: Sys, cells: Repo.Cells, after: Repo.Cells, log: PLog, w: nat, q: DispatchIds,
                     owner: string, duration: int, now: int, claim: EA.Result<(EA.Disposition, EA.Action)>)
    requires Holds(s, cells, log) && PcOf(s, w).Idle? && claim.Ok?
    requires Repo.ClaimedOn(cells, after, claim, q.tenantId, q.actionId, q.idempotencyKey, owner, duration, now)
    ensures var i := claim.value.1.id;
            var s' := Do(Do(s, List(w, i)), TryClaim(w, owner, duration, now));
            && i in cells && Fits(cells[i], q) && Holds(s', after, log) && StoreAdvances(cells, after)
            && PcOf(s', w) == AfterClaim(claim.value.0, i, claim.value.1.dispatchAttempts)
            && (claim.value.0.SettledAlready? ==> SettledNamed(after, q))
  {
    var i := claim.value.1.id;
    MovingHolds(s, cells, log, w, Listed(i));
    ClaimHolds(Goto(s, w, Listed(i)), cells, after, log, w, q, owner, duration, now, claim);
    ClaimSettled(cells, after, q, i, owner, duration, now, claim);
  }

  lemma OthersLeaveMe(s: Sys, l: Label, w: nat)
    requires !ByWorker(l, w)
    ensures PcOf(Do(s, l), w) == PcOf(s, w)
  {
  }

  const DISPATCH_TYPE := "n8n.dispatch.requested.v1"

  class OutboxPublisher {
    const id: nat
    const outbox: InMemoryOutboxRepository<Payload>
    const actions: Repo.InMemoryExternalActionsRepository
    const config: Config
    var journal: seq<Effect>

    ghost predicate Valid()
      reads outbox, actions
    {
      outbox.Valid() && actions.Valid()
    }

    /** The repositories are in this state of the protocol. */
    ghost predicate InState(s: Sys)
      reads outbox, actions
    {
      Valid() && Holds(s, actions.actionsById, outbox.Log())
    }

    ghost function Now(s: Sys): Snap
      requires Valid()
      reads outbox, actions
    {
      Snap(s, actions.actionsById, outbox.Log())
    }

    constructor (id: nat, outbox: InMemoryOutboxRepository<Payload>, actions: Repo.InMemoryExternalActionsRepository,
                 config: Config)
      requires outbox.Valid() && actions.Valid()
      ensures Valid() && journal == [] && this.id == id
      ensures this.outbox == outbox && this.actions == actions && this.config == config
    {
      this.id, this.outbox, this.actions, this.config, journal := id, outbox, actions, config, [];
    }

    // ── One repository call, one step of the protocol, whoever makes it ────

    /** List the action the ids name, and claim it. */
    method Claim(w: nat, q: DispatchIds, owner: string, duration: int, now: int, s: Sys)
      returns (claim: EA.Result<(EA.Disposition, EA.Action)>, i: nat, s': Sys)
      requires InState(s) && PcOf(s, w).Idle?
      modifies actions
      ensures InState(s') && outbox.Log() == old(outbox.Log())
      ensures StoreAdvances(old(actions.actionsById), actions.actionsById)
      ensures claim.Err? ==> s' == s && actions.actionsById == old(actions.actionsById)
      ensures claim.Ok? ==> ValidIds(q) && owner != "" && duration > 0
      ensures IsKnown(old(actions.actionsById), q) && ValidIds(q) && owner != "" && duration > 0 ==> claim.Ok?
      ensures claim.Ok? ==>
                && i in old(actions.actionsById) && Fits(old(actions.actionsById)[i], q)
                && s' == Do(Do(s, List(w, i)), TryClaim(w, owner, duration, now))
                && PcOf(s', w) == AfterClaim(claim.value.0, i, claim.value.1.dispatchAttempts)
                && (claim.value.0.SettledAlready? ==> SettledNamed(actions.actionsById, q))
    {
      ghost var before, log := actions.actionsById, outbox.Log();
      claim := actions.ClaimDispatch(q.tenantId, q.actionId, q.idempotencyKey, owner, duration, now);
      ClaimAnsweredIff(before, actions.actionsById, q, owner, duration, now, claim);
      i, s' := 0, s;
      if claim.Ok? {
        i := claim.value.1.id;
        ClaimsListed(s, before, actions.actionsById, log, w, q, owner, duration, now, claim);
        s' := Do(Do(s, List(w, i)), TryClaim(w, owner, duration, now));
      }
    }

    /** The same for an action listed before. */
    method ClaimListed(w: nat, owner: string, duration: int, now: int, s: Sys) returns (ok: bool, s': Sys)
      requires InState(s) && PcOf(s, w).Listed? && PcOf(s, w).id in s.items
      modifies actions
      ensures InState(s') && outbox.Log() == old(outbox.Log())
      ensures StoreAdvances(old(actions.actionsById), actions.actionsById)
      ensures s' == if ok then Do(s, TryClaim(w, owner, duration, now)) else s
    {
      ghost var before, log := actions.actionsById, outbox.Log();
      var q := NamesOf(s.items[PcOf(s, w).id].cell.action.request);
      var claim := actions.ClaimDispatch(q.tenantId, q.actionId, q.idempotencyKey, owner, duration, now);
      ok := claim.Ok?;
      if ok {
        ClaimHolds(s, before, actions.actionsById, log, w, q, owner, duration, now, claim);
      }
      s' := if ok then Do(s, TryClaim(w, owner, duration, now)) else s;
    }

    /** Tell the repository what n8n answered; false when it refuses. */
    method ReportAnswer(w: nat, q: DispatchIds, owner: string, code: string, now: int, s: Sys)
      returns (ok: bool, s': Sys)
      requires InState(s) && PcOf(s, w).Called? && !PcOf(s, w).result.Threw? && PcOf(s, w).id in s.items
      requires Fits(actions.actionsById[PcOf(s, w).id], q)
      modifies actions
      ensures InState(s') && outbox.Log() == old(outbox.Log())
      ensures StoreAdvances(old(actions.actionsById), actions.actionsById)
      ensures s' == if ok then Do(s, ReportBack(w, owner, code, now)) else s
      ensures ok ==> PcOf(s', w) == if PcOf(s, w).result.Retryable? then Idle else Consuming(PcOf(s, w).id)
      ensures ok ==> Enabled(s, ReportBack(w, owner, code, now))
      ensures !ok && ValidIds(q) ==> !Enabled(s, ReportBack(w, owner, code, now))
      ensures ok && !PcOf(s, w).result.Retryable? ==> SettledNamed(actions.actionsById, q)
    {
      ghost var before, log := actions.actionsById, outbox.Log();
      var r := SendReport(q, PcOf(s, w).result, owner, code, now);
      ok := r.Ok?;
      if ok {
        ReportHolds(s, before, actions.actionsById, log, w, q, owner, code, now, r);
        ReportReplaces(before, actions.actionsById, PcOf(s, w).id, q, owner, ReportOf(PcOf(s, w).result, code), now, r);
        if !PcOf(s, w).result.Retryable? {
          ReportSettles(before, actions.actionsById, q, owner, ReportOf(PcOf(s, w).result, code), now, r);
        }
      } else if ValidIds(q) {
        ReportRefused(before, actions.actionsById, PcOf(s, w).id, q, owner, ReportOf(PcOf(s, w).result, code), now, r);
      }
      s' := if ok then Do(s, ReportBack(w, owner, code, now)) else s;
    }

    method SendReport(q: DispatchIds, result: ProviderResult, owner: string, code: string, now: int)
      returns (r: EA.Result<EA.Action>)
      requires Valid() && !result.Threw?
      modifies actions
      ensures Valid() && outbox.Log() == old(outbox.Log())
      ensures Repo.Reported(old(actions.actionsById), actions.actionsById, r, q.tenantId, q.actionId, q.idempotencyKey,
                            owner, ReportOf(result, code), now)
      ensures r == EA.Err(EA.InvalidInput) <==> !ValidIds(q)
    {
      match result {
        case Success =>
          r := actions.RecordDispatchAccepted(q.tenantId, q.actionId, q.idempotencyKey, owner, now);
        case Retryable(delay) =>
          r := actions.ScheduleDispatchRetry(q.tenantId, q.actionId, q.idempotencyKey, owner, delay, code, now);
        case Permanent =>
          r := actions.FailDispatch(q.tenantId, q.actionId, q.idempotencyKey, owner, code, now);
      }
    }

    method RowAt(n: nat) returns (r: Option<PRow>)
      requires Valid()
      ensures r == if 1 <= n <= |outbox.Log()| then Some(outbox.Log()[n - 1]) else None
    {
      return if n in outbox.eventsById then Some(outbox.eventsById[n]) else None;
    }

    /** `markConsumed` on a stored row. */
    method MarkRow(n: nat, tenantId: string, at: int)
      requires Valid() && 1 <= n <= |outbox.Log()| && tenantId == outbox.Log()[n - 1].identity.tenantId
      modifies outbox
      ensures Valid() && outbox.Log() == Consumed(old(outbox.Log()), n, at)
      ensures actions.actionsById == old(actions.actionsById)
    {
      var done := outbox.MarkConsumed(tenantId, n, at);
    }

    method ConsumeRow(w: nat, n: nat, at: int, s: Sys) returns (s': Sys)
      requires InState(s) && PcOf(s, w).Consuming? && PcOf(s, w).id in s.items && 1 <= n <= |outbox.Log()|
      requires Asks(outbox.Log()[n - 1].payload, actions.actionsById[PcOf(s, w).id])
      modifies outbox
      ensures InState(s') && s' == Do(s, Consume(w)) && PcOf(s', w).Idle?
      ensures outbox.Log() == Consumed(old(outbox.Log()), n, at)
    {
      ConsumeHolds(s, actions.actionsById, outbox.Log(), w, n, at);
      var row := RowAt(n);
      MarkRow(n, row.value.identity.tenantId, at);
      s' := Do(s, Consume(w));
    }

    /** The row that asks for this action; 0 when there is none. */
    method FindRow(cell: EA.Cell) returns (n: nat)
      requires Valid()
      ensures n <= |outbox.Log()| && (n > 0 ==> Asks(outbox.Log()[n - 1].payload, cell))
    {
      n := outbox.sequence;
      while n > 0
        invariant n <= |outbox.Log()|
      {
        var row := RowAt(n);
        if Asks(row.value.payload, cell) {
          return;
        }
        n := n - 1;
      }
    }

    // ── What others do ─────────────────────────────────────────────────────

    method Callback(i: nat, cb: string, completed: bool, code: string, now: int, s: Sys) returns (ok: bool, s': Sys)
      requires InState(s) && i in s.items
      modifies actions
      ensures InState(s') && outbox.Log() == old(outbox.Log())
      ensures StoreAdvances(old(actions.actionsById), actions.actionsById)
      ensures s' == if ok then Do(s, CallbackArrives(i, cb, completed, code, now)) else s
    {
      ghost var before, log := actions.actionsById, outbox.Log();
      var q := NamesOf(s.items[i].cell.action.request);
      var r := actions.RecordOutcome(q.tenantId, q.actionId, q.idempotencyKey, cb, completed, code, now);
      ok := r.Ok?;
      if ok {
        CallbackReplaces(before, actions.actionsById, i, cb, completed, code, now, r);
        CallbackHolds(s, before, actions.actionsById, log, i, cb, completed, code, now);
      }
      s' := if ok then Do(s, CallbackArrives(i, cb, completed, code, now)) else s;
    }

    /** `enqueueRequested`: a new action and its dispatch row; None for a replay and for a refusal. */
    method Request(request: StableJson.Request, now: int, s: Sys) returns (made: Option<Label>, s': Sys)
      requires InState(s)
      modifies actions, outbox
      ensures InState(s') && s' == (if made.Some? then Do(s, made.value) else s)
      ensures made.Some? ==> made.value.Enqueue?
      ensures StoreAdvances(old(actions.actionsById), actions.actionsById)
      ensures LogMoves(old(outbox.Log()), outbox.Log(), {})
    {
      made := None;
      var i;
      i, s' := NewAction(request, now, s);
      if i.Some? {
        made := Some(Enqueue(i.value, request, now));
        AskDispatch(i.value, request, now, s');
      }
    }

    method NewAction(request: StableJson.Request, now: int, s: Sys) returns (i: Option<nat>, s': Sys)
      requires InState(s)
      modifies actions
      ensures InState(s') && outbox.Log() == old(outbox.Log())
      ensures StoreAdvances(old(actions.actionsById), actions.actionsById)
      ensures s' == if i.Some? then Do(s, Enqueue(i.value, request, now)) else s
      ensures i.Some? ==>
                && i.value in actions.actionsById && actions.actionsById[i.value].action.request == request
                && NoneAsks(outbox.Log(), actions.actionsById[i.value])
    {
      ghost var before, log := actions.actionsById, outbox.Log();
      i, s' := None, s;
      var r := actions.EnqueueRequested(request, now);
      if r.Ok? && !r.value.1 {
        i := Some(r.value.0.id);
        RequestHolds(s, before, actions.actionsById, log, request, now, r);
        s' := Do(s, Enqueue(i.value, request, now));
      }
    }

    /** The dispatch row of an action that has none. */
    method AskDispatch(i: nat, request: StableJson.Request, now: int, s: Sys)
      requires InState(s) && i in actions.actionsById && actions.actionsById[i].action.request == request
      requires NoneAsks(outbox.Log(), actions.actionsById[i])
      modifies outbox
      ensures InState(s) && LogMoves(old(outbox.Log()), outbox.Log(), {})
    {
      ghost var log := outbox.Log();
      var q := NamesOf(request);
      var c := Command(Identity(q.tenantId, DISPATCH_TYPE, q.idempotencyKey), DispatchPayload(Some(q)));
      AsksForOne(actions.actionsById, log, q, i);
      EnqueueingHolds(s, actions.actionsById, log, c, now);
      EnqueueingMoves(log, c, now);
      var stored := outbox.Enqueue(c, now);
    }

    lemma AsksForOne(cells: Repo.Cells, log: PLog, q: DispatchIds, i: nat)
      requires UniqueNames(cells) && i in cells && Fits(cells[i], q)
      requires NoneAsks(log, cells[i])
      ensures forall x, k | x in cells && 0 <= k < |log| && Fits(cells[x], q) :: !Asks(log[k].payload, cells[x])
      ensures Stored(cells, q)
    {
      forall x, k | x in cells && 0 <= k < |log| && Fits(cells[x], q)
        ensures !Asks(log[k].payload, cells[x])
      {
        assert SameName(cells[i], cells[x]);
      }
    }

    /** A worker's call of the action repository; false when it cannot be made. */
    method PerformCall(l: Label, s: Sys) returns (done: bool, s': Sys)
      requires InState(s)
      modifies actions
      ensures InState(s') && s' == (if done then Do(s, l) else s) && outbox.Log() == old(outbox.Log())
      ensures StoreAdvances(old(actions.actionsById), actions.actionsById)
    {
      done, s' := false, s;
      match l {
        case TryClaim(w, owner, duration, now) =>
          if PcOf(s, w).Listed? && PcOf(s, w).id in s.items {
            done, s' := ClaimListed(w, owner, duration, now, s);
          }
        case ReportBack(w, owner, code, now) =>
          if PcOf(s, w).Called? && !PcOf(s, w).result.Threw? && PcOf(s, w).id in s.items {
            done, s' := ReportAnswer(w, NamesOf(s.items[PcOf(s, w).id].cell.action.request), owner, code, now, s);
          }
        case CallbackArrives(i, cb, completed, code, now) =>
          if i in s.items {
            done, s' := Callback(i, cb, completed, code, now, s);
          }
        case _ =>
      }
    }

    /** A step of the protocol; None when it cannot be made. */
    method PerformStep(l: Label, at: int, s: Sys) returns (made: Option<Label>, ghost theirs: set<nat>, s': Sys)
      requires InState(s)
      modifies actions, outbox
      ensures InState(s') && s' == (if made.Some? then Do(s, made.value) else s)
      ensures made.Some? ==> forall w :: ByWorker(made.value, w) ==> ByWorker(l, w)
      ensures StoreAdvances(old(actions.actionsById), actions.actionsById)
      ensures LogMoves(old(outbox.Log()), outbox.Log(), theirs)
    {
      theirs := {};
      if l.Enqueue? {
        made, s' := Request(l.request, l.now, s);
      } else if l.Consume? {
        made, theirs, s' := ConsumeTheirs(l.w, at, s);
      } else if l.List? || l.CallProvider? || l.Crash? {
        LocalStep(s, l);
        made, s' := Some(l), Do(s, l);
      } else {
        var done;
        done, s' := PerformCall(l, s);
        made := if done then Some(l) else None;
      }
    }

    method ConsumeTheirs(w: nat, at: int, s: Sys) returns (made: Option<Label>, ghost theirs: set<nat>, s': Sys)
      requires InState(s)
      modifies outbox
      ensures InState(s') && s' == (if made.Some? then Do(s, made.value) else s)
      ensures made.Some? ==> made.value == Consume(w)
      ensures LogMoves(old(outbox.Log()), outbox.Log(), theirs)
    {
      made, theirs, s' := None, {}, s;
      if PcOf(s, w).Consuming? && PcOf(s, w).id in s.items {
        var n := FindRow(s.items[PcOf(s, w).id].cell);
        if n > 0 {
          ConsumingMoves(outbox.Log(), n, at);
          s' := ConsumeRow(w, n, at, s);
          made, theirs := Some(Consume(w)), {n};
        }
      }
    }

    /** Steps that call no repository. */
    lemma LocalStep(s: Sys, l: Label)
      requires InState(s) && (l.List? || l.CallProvider? || l.Crash?)
      ensures InState(Do(s, l))
    {
      match l
      case List(w, i) => MovingHolds(s, actions.actionsById, outbox.Log(), w, Listed(i));
      case CallProvider(w, r) => CallHolds(s, actions.actionsById, outbox.Log(), w, r);
      case Crash(w) => MovingHolds(s, actions.actionsById, outbox.Log(), w, Idle);
    }

    /** Anything others do. */
    method Perform(d: Deed, s: Sys) returns (made: Option<Label>, ghost theirs: set<nat>, s': Sys)
      requires InState(s)
      modifies actions, outbox
      ensures InState(s') && s' == (if made.Some? then Do(s, made.value) else s)
      ensures made.Some? ==> d.Deed? && forall w :: ByWorker(made.value, w) ==> ByWorker(d.step, w)
      ensures StoreAdvances(old(actions.actionsById), actions.actionsById)
      ensures LogMoves(old(outbox.Log()), outbox.Log(), theirs)
    {
      match d {
        case Deed(l, at) =>
          made, theirs, s' := PerformStep(l, at, s);
        case Produce(command, at) =>
          made, theirs, s' := None, {}, s;
          if !IsRequest(command.payload) {
            EnqueueingHolds(s, actions.actionsById, outbox.Log(), command, at);
            EnqueueingMoves(outbox.Log(), command, at);
            var stored := outbox.Enqueue(command, at);
          }
        case MarkOther(n, at) =>
          made, theirs, s' := None, {}, s;
          var row := RowAt(n);
          if row.Some? && !IsRequest(row.value.payload) {
            ForeignRowHolds(s, actions.actionsById, outbox.Log(), n, at);
            ConsumingMoves(outbox.Log(), n, at);
            MarkRow(n, row.value.identity.tenantId, at);
            theirs := {n};
          }
      }
    }

    // ── Awaiting ───────────────────────────────────────────────────────────

    /** Since the start: this past, this state, and this worker at this point of its work. */
    ghost predicate At(from: Snap, past: Past, s: Sys, pc: Pc)
      reads outbox, actions
    {
      Valid() && Stands(id, from, past, Now(s), pc)
    }

    /** What everyone else does while this worker waits; in silence, nothing. */
    method Wait(a: Await, world: World, ghost from: Snap, ghost past: Past, s: Sys, ghost pc: Pc)
      returns (ghost past': Past, s': Sys)
      requires At(from, past, s, pc) && OthersOnly(world, id)
      modifies actions, outbox
      ensures At(from, past', s', pc) && Adds(past, [], {}, IsQuiet(world), past')
      ensures StoreAdvances(old(actions.actionsById), actions.actionsById)
      ensures IsQuiet(world) ==> s' == s && actions.actionsById == old(actions.actionsById)
    {
      var others := world.others(a);
      past', s' := past, s;
      AddsNothing(past, others == []);
      var k := 0;
      while k < |others|
        invariant k <= |others| && At(from, past', s', pc) && Adds(past, [], {}, others == [], past')
        invariant others == [] ==> s' == s && actions.actionsById == old(actions.actionsById)
        invariant StoreAdvances(old(actions.actionsById), actions.actionsById)
      {
        assert others[k] in world.others(a);
        ghost var before := actions.actionsById;
        ghost var sooner := past';
        past', s' := OneOther(others[k], from, past', s', pc);
        AddsThen(past, [], others == [], sooner, [], {}, past');
        AdvancesTransitive(old(actions.actionsById), before, actions.actionsById);
        k := k + 1;
      }
    }

    method OneOther(d: Deed, ghost from: Snap, ghost past: Past, s: Sys, ghost pc: Pc)
      returns (ghost past': Past, s': Sys)
      requires At(from, past, s, pc) && (d.Deed? ==> !ByWorker(d.step, id))
      modifies actions, outbox
      ensures At(from, past', s', pc) && Adds(past, [], {}, false, past')
      ensures StoreAdvances(old(actions.actionsById), actions.actionsById)
    {
      ghost var x := Now(s);
      var made;
      ghost var theirs;
      made, theirs, s' := Perform(d, s);
      assert theirs + {} == theirs;
      ghost var added := |Now(s').log| - |x.log|;
      ghost var more := Past([], [], theirs, {}, added);
      if made.Some? {
        OthersLeaveMe(s, made.value, id);
        more := One(made.value, id, theirs, {}, added);
        SteppedIsWent(id, x, made.value, Now(s'), theirs, {});
      } else {
        QuietlyWent(id, x, Now(s'), theirs, {});
      }
      WentOn(id, from, past, x, more, Now(s'));
      past' := Followed(past, more);
    }

    // ── Handling one row ───────────────────────────────────────────────────

    /** Returns false when it throws. */
    method PersistOperationalState(row: PRow, world: World) returns (ok: bool)
      modifies this`journal
      ensures ok <==> CanSave(row, world)
      ensures ok ==> journal == old(journal) + Saves(config, row)
      ensures row.payload.DispatchPayload? ==> ok
      ensures !ok ==> old(journal) <= journal && journal < old(journal) + Saves(config, row) + [RowConsumed(row.id)]
    {
      match row.payload {
        case IncidentPayload(key) =>
          if !config.incidentsConfigured {
            return true;
          }
          if key.None? || !world.incidentWrite {
            return false;
          }
          journal := journal + [IncidentSaved(row.id)];
          return true;
        case DeadLetterPayload(key) =>
          if key.None? {
            return false;
          }
          if config.incidentsConfigured {
            if !world.incidentWrite {
              return false;
            }
            journal := journal + [IncidentSaved(row.id)];
          }
          if config.healthConfigured {
            if !world.healthWrite {
              return false;
            }
            journal := journal + [HealthSaved(row.id)];
          }
          return true;
        case _ =>
          return true;
      }
    }

    /** The claim. None when it throws. */
    method ClaimFirst(row: PRow, q: DispatchIds, world: World, ghost from: Snap, ghost past: Past, s: Sys)
      returns (d: Option<EA.Disposition>, i: nat, ghost pc: Pc, ghost past': Past, s': Sys)
      requires At(from, past, s, Idle) && OthersOnly(world, id)
      requires Starts(from, row) && row.payload == DispatchPayload(Some(q))
      modifies actions, outbox
      ensures At(from, past', s', pc) && Claims(d, i, pc, from.cells, q)
      ensures Adds(past, if d.Some? then Head(i, id, config, world) else [], {}, IsQuiet(world), past')
      ensures d == Some(EA.SettledAlready) ==> SettledNamed(actions.actionsById, q)
      ensures d.Some? <==> CanClaim(q)
      ensures IsQuiet(world) && d.Some? ==> s' == AfterClaimStep(s, i, id, config, world)
    {
      past', s' := Wait(AtClaim, world, from, past, s, Idle);
      ghost var waited, x := past', Now(s');
      StillKnown(from, past', x, row, q);
      d, i, pc, past', s' := ClaimNow(row, q, world, from, past', s');
      ArrivedAdds(d, i, pc, q, from, waited, x, world, past', Now(s'));
      AddsWaited(past, IsQuiet(world), waited, if d.Some? then Head(i, id, config, world) else [], {}, past');
    }

    /** Where a claim leaves the worker. */
    ghost predicate Claims(d: Option<EA.Disposition>, i: nat, pc: Pc, cells: Repo.Cells, q: DispatchIds) {
      match d
      case None => pc.Idle?
      case Some(disposition) =>
        i in cells && Fits(cells[i], q) && exists n: nat :: pc == AfterClaim(disposition, i, n)
    }

    /** The ids are valid, and the configuration names a worker and a lease. */
    predicate CanClaim(q: DispatchIds) {
      ValidIds(q) && config.workerId != "" && config.leaseMs > 0
    }

    lemma StillKnown(from: Snap, past: Past, x: Snap, row: PRow, q: DispatchIds)
      requires Starts(from, row) && Stands(id, from, past, x, Idle) && row.payload == DispatchPayload(Some(q))
      ensures IsKnown(x.cells, q)
    {
      WasKnown(from.cells, from.log, row, q);
      KnownStays(from.cells, x.cells, q);
    }

    lemma WasKnown(cells: Repo.Cells, log: PLog, row: PRow, q: DispatchIds)
      requires RowsHaveActions(cells, log) && IsListed(row, log) && row.payload == DispatchPayload(Some(q))
      ensures IsKnown(cells, q)
    {
      assert IsRequest(log[row.id - 1].payload);
    }

    lemma KnownStays(cells: Repo.Cells, later: Repo.Cells, q: DispatchIds)
      requires IsKnown(cells, q) && StoreAdvances(cells, later)
      ensures IsKnown(later, q)
    {
      var i :| i in cells && Fits(cells[i], q);
      assert i in later && Fits(later[i], q);
    }

    /** What comes of a claim: nothing has happened, or the action was listed and claimed. */
    ghost predicate Arrived(d: Option<EA.Disposition>, i: nat, pc: Pc, q: DispatchIds, from: Snap, past: Past, x: Snap,
                            world: World, past': Past, y: Snap) {
      match d
      case None => Stands(id, from, past, y, Idle) && pc.Idle? && past' == past
      case Some(disposition) =>
        && Stands(id, from, past', y, pc) && Claims(d, i, pc, from.cells, q)
        && Adds(past, Head(i, id, config, world), {}, IsQuiet(world), past')
        && y.s == AfterClaimStep(x.s, i, id, config, world)
        && (disposition.SettledAlready? ==> SettledNamed(y.cells, q))
    }

    method ClaimNow(row: PRow, q: DispatchIds, world: World, ghost from: Snap, ghost past: Past, s: Sys)
      returns (d: Option<EA.Disposition>, i: nat, ghost pc: Pc, ghost past': Past, s': Sys)
      requires At(from, past, s, Idle) && Starts(from, row) && row.payload == DispatchPayload(Some(q))
      modifies actions
      ensures Valid() && Arrived(d, i, pc, q, from, past, old(Now(s)), world, past', Now(s'))
      ensures d.Some? ==> CanClaim(q)
      ensures IsKnown(old(actions.actionsById), q) && CanClaim(q) ==> d.Some?
    {
      ghost var x := Now(s);
      var claim;
      claim, i, s' := Claim(id, q, config.workerId, config.leaseMs, world.claimAt, s);
      d := if claim.Ok? then Some(claim.value.0) else None;
      pc, past' := Idle, past;
      if claim.Ok? {
        pc := PcOf(s', id);
        past' := HeadArrives(from, past, x, row, q, i, claim.value.0, claim.value.1.dispatchAttempts, world, Now(s'));
      }
    }

    lemma ArrivedAdds(d: Option<EA.Disposition>, i: nat, pc: Pc, q: DispatchIds, from: Snap, past: Past, x: Snap,
                      world: World, past': Past, y: Snap)
      requires Arrived(d, i, pc, q, from, past, x, world, past', y)
      ensures Stands(id, from, past', y, pc) && Claims(d, i, pc, from.cells, q)
      ensures Adds(past, if d.Some? then Head(i, id, config, world) else [], {}, IsQuiet(world), past')
      ensures d == Some(EA.SettledAlready) ==> SettledNamed(y.cells, q)
      ensures d.Some? ==> y.s == AfterClaimStep(x.s, i, id, config, world)
    {
      AddsNothing(past, IsQuiet(world));
    }

    /** Listing and claiming the action the row asks for. */
    lemma HeadArrives(from: Snap, past: Past, x: Snap, row: PRow, q: DispatchIds, i: nat, d: EA.Disposition, n: nat,
                      world: World, y: Snap) returns (past': Past)
      requires Stands(id, from, past, x, Idle) && Starts(from, row) && row.payload == DispatchPayload(Some(q))
      requires i in x.cells && Fits(x.cells[i], q) && config.workerId != "" && config.leaseMs > 0
      requires y.s == AfterClaimStep(x.s, i, id, config, world) && PcOf(y.s, id) == AfterClaim(d, i, n)
      requires Holds(y.s, y.cells, y.log) && StoreAdvances(x.cells, y.cells) && y.log == x.log
      ensures Stands(id, from, past', y, PcOf(y.s, id)) && Claims(Some(d), i, PcOf(y.s, id), from.cells, q)
      ensures Adds(past, Head(i, id, config, world), {}, IsQuiet(world), past')
    {
      FoundAgain(from.cells, from.log, row, q, x.cells, i);
      past' := HeadWent(from, past, x, i, world, y);
    }

    lemma HeadWent(from: Snap, past: Past, x: Snap, i: nat, world: World, z: Snap) returns (past': Past)
      requires Went(id, from, past, x) && StoreAdvances(x.cells, z.cells)
      requires x.log == z.log && Enabled(x.s, List(id, i)) && config.workerId != "" && config.leaseMs > 0
      requires z.s == AfterClaimStep(x.s, i, id, config, world)
      ensures Went(id, from, past', z) && Adds(past, Head(i, id, config, world), {}, IsQuiet(world), past')
    {
      var k, l := List(id, i), TryClaim(id, config.workerId, config.leaseMs, world.claimAt);
      var y := Snap(Do(x.s, k), x.cells, x.log);
      ListTook(x.s, id, i);
      WentMyStep(id, from, past, x, k, y);
      WentMyStep(id, from, Then(past, k), y, l, z);
      past' := Then(Then(past, k), l);
      AddsStep(past, k, IsQuiet(world));
      AddsStep(Then(past, k), l, IsQuiet(world));
      AddsThen(past, [k], IsQuiet(world), Then(past, k), [l], {}, past');
    }

    /** The call of n8n; idle afterwards when it throws. */
    method CallN8n(i: nat, n: nat, world: World, ghost from: Snap, ghost past: Past, s: Sys)
      returns (ghost past': Past, s': Sys)
      requires At(from, past, s, Calling(i, n)) && OthersOnly(world, id) && i in from.cells
      modifies actions, outbox
      ensures At(from, past', s',
                 if world.provider.Throws? then Idle else Called(i, n, ResultOf(config, world.provider)))
      ensures Adds(past, [Call(id, config, world)], {}, IsQuiet(world), past')
      ensures IsQuiet(world) ==> s' == Do(s, Call(id, config, world))
    {
      past', s' := Wait(AtCall, world, from, past, s, Calling(i, n));
      CallIs(i, n, world, from, past', s');
      ghost var l, waited := Call(id, config, world), past';
      s' := Do(s', Call(id, config, world));
      past' := Then(past', l);
      AddsStep(waited, l, IsQuiet(world));
      AddsWaited(past, IsQuiet(world), waited, [l], {}, past');
    }

    lemma CallIs(i: nat, n: nat, world: World, from: Snap, past: Past, s: Sys)
      requires At(from, past, s, Calling(i, n)) && i in from.cells
      ensures At(from, Then(past, Call(id, config, world)), Do(s, Call(id, config, world)),
                 if world.provider.Throws? then Idle else Called(i, n, ResultOf(config, world.provider)))
    {
      StandsLocally(id, from, past, Now(s), Calling(i, n), Call(id, config, world),
                    if world.provider.Throws? then Idle else Called(i, n, ResultOf(config, world.provider)));
    }

    /** A throw that ends the row: in the protocol the worker crashes and is idle again. */
    method Throw(ghost from: Snap, ghost past: Past, s: Sys, ghost pc: Pc) returns (ghost past': Past, s': Sys)
      requires At(from, past, s, pc)
      ensures At(from, past', s', Idle) && past' == Then(past, Crash(id))
    {
      StandsLocally(id, from, past, Now(s), pc, Crash(id), Idle);
      s' := Do(s, Crash(id));
      past' := Then(past, Crash(id));
    }

    /** The report of n8n's answer; false when the repository refuses it. */
    method Report(q: DispatchIds, i: nat, n: nat, world: World, ghost from: Snap, ghost past: Past, s: Sys)
      returns (ok: bool, ghost past': Past, s': Sys)
      requires At(from, past, s, Called(i, n, ResultOf(config, world.provider))) && OthersOnly(world, id)
      requires !world.provider.Throws? && i in from.cells && Fits(from.cells[i], q)
      modifies actions, outbox
      ensures At(from, past', s', if !ok || world.provider.Retryable? then Idle else Consuming(i))
      ensures Adds(past, [if ok then PublisherRuns.Report(id, config, world) else Crash(id)], {}, IsQuiet(world), past')
      ensures ok && !world.provider.Retryable? ==> SettledNamed(actions.actionsById, q)
      ensures IsQuiet(world) && !ok && ValidIds(q) ==> !Enabled(s, PublisherRuns.Report(id, config, world))
    {
      past', s' := Wait(AtReport, world, from, past, s, Called(i, n, ResultOf(config, world.provider)));
      ghost var waited := past';
      ok, past', s' := ReportNow(q, i, n, world, from, past', s');
      AddsWaited(past, IsQuiet(world), waited,
                 [if ok then PublisherRuns.Report(id, config, world) else Crash(id)], {}, past');
    }

    method ReportNow(q: DispatchIds, i: nat, n: nat, world: World, ghost from: Snap, ghost past: Past, s: Sys)
      returns (ok: bool, ghost past': Past, s': Sys)
      requires At(from, past, s, Called(i, n, ResultOf(config, world.provider)))
      requires !world.provider.Throws? && i in from.cells && Fits(from.cells[i], q)
      modifies actions
      ensures At(from, past', s', if !ok || world.provider.Retryable? then Idle else Consuming(i))
      ensures Adds(past, [if ok then PublisherRuns.Report(id, config, world) else Crash(id)], {}, IsQuiet(world), past')
      ensures ok && !world.provider.Retryable? ==> SettledNamed(actions.actionsById, q)
      ensures !ok && ValidIds(q) ==> !Enabled(s, PublisherRuns.Report(id, config, world))
    {
      ghost var x := Now(s);
      ok, s' := ReportAnswer(id, q, config.workerId, CodeOf(world.provider), world.reportAt, s);
      if ok {
        ghost var l := PublisherRuns.Report(id, config, world);
        StepArrives(id, from, past, x, l, Now(s'), if world.provider.Retryable? then Idle else Consuming(i));
        past' := Then(past, l);
        AddsStep(past, l, IsQuiet(world));
      } else {
        past', s' := Throw(from, past, s', Called(i, n, ResultOf(config, world.provider)));
        AddsStep(past, Crash(id), IsQuiet(world));
      }
    }

    /** What n8n answers to a granted claim, and what comes of it. */
    method Ask(q: DispatchIds, i: nat, n: nat, world: World, ghost from: Snap, ghost past: Past, s: Sys)
      returns (way: Way, ghost past': Past, s': Sys)
      requires At(from, past, s, Calling(i, n)) && OthersOnly(world, id) && i in from.cells && Fits(from.cells[i], q)
      modifies actions, outbox
      ensures At(from, past', s', if FateOf(way).WasConsumed? then Consuming(i) else Idle)
      ensures way in {Throwing, Unreported, Retrying, Reporting} && Suits(way, world.provider)
      ensures Adds(past, Rest(way, id, config, world), {}, IsQuiet(world), past')
      ensures way.Reporting? ==> SettledNamed(actions.actionsById, q)
      ensures IsQuiet(world) && way.Unreported? && ValidIds(q) ==>
                !Enabled(Do(s, Call(id, config, world)), PublisherRuns.Report(id, config, world))
    {
      past', s' := CallN8n(i, n, world, from, past, s);
      way := Throwing;
      if !world.provider.Throws? {
        ghost var asked := past';
        var ok;
        ok, past', s' := Report(q, i, n, world, from, past', s');
        way := WayOf(ok, world.provider);
        AddsReport(past, IsQuiet(world), asked, ok, id, config, world, past');
      }
    }

    /** Dispatch is configured, and the row's ids and the lease can be claimed with. */
    predicate CanDispatch(row: PRow) {
      config.dispatchConfigured && IsRequest(row.payload) && CanClaim(row.payload.request.value)
    }

    /** Left alone, the turn changed this action alone, in this way. */
    ghost predicate LeftQuietly(way: Way, i: nat, world: World, before: Repo.Cells, after: Repo.Cells) {
      match way
      case Untouched => after == before
      case _ =>
        && (forall j {:trigger j in after} :: j in before <==> j in after)
        && (forall j {:trigger j in before} | j in before && j != i :: after[j] == before[j])
        && i in before && QuietLeft(way, config, world, before[i], after[i])
    }

    /** Claim, call n8n, report what it answered. The fate is left to the caller; nothing is marked yet. */
    method DispatchN8nAction(row: PRow, world: World, ghost from: Snap, ghost past: Past, s: Sys)
      returns (way: Way, i: nat, ghost past': Past, s': Sys)
      requires At(from, past, s, Idle) && OthersOnly(world, id) && Starts(from, row) && row.payload.DispatchPayload?
      modifies actions, outbox
      ensures At(from, past', s', if FateOf(way).WasConsumed? then Consuming(i) else Idle)
      ensures Adds(past, Body(way, i, id, config, world), {}, IsQuiet(world), past')
      ensures Suits(way, world.provider) && (way != Untouched ==> Dispatches(row, from.cells, i))
      ensures FateOf(way).WasConsumed? ==> SettledFor(actions.actionsById, row)
      ensures way.Untouched? <==> !CanDispatch(row)
      ensures Turned(way, i, id, config, world, from.s, past'.labels, |past.labels|)
      ensures IsQuiet(world) ==> LeftQuietly(way, i, world, old(actions.actionsById), actions.actionsById)
    {
      ghost var x := Now(s);
      CellsAreGood(s);
      way, i, past', s' := TryDispatch(row, world, from, past, s);
      TurnSeen(way, i, world, from, past, x, past', Now(s'));
    }

    lemma CellsAreGood(s: Sys)
      requires InState(s)
      ensures GoodCells(s)
    {
    }

    /** The run and both ends of it show what the turn did. */
    lemma TurnSeen(way: Way, i: nat, world: World, from: Snap, past: Past, x: Snap, past': Past, y: Snap)
      requires Stands(id, from, past, x, Idle) && GoodCells(x.s)
      requires Stands(id, from, past', y, if FateOf(way).WasConsumed? then Consuming(i) else Idle)
      requires Adds(past, Body(way, i, id, config, world), {}, IsQuiet(world), past') && Suits(way, world.provider)
      requires IsQuiet(world) && way.Unreported? ==>
                 !Enabled(AfterCall(x.s, i, id, config, world), PublisherRuns.Report(id, config, world))
      ensures Turned(way, i, id, config, world, from.s, past'.labels, |past.labels|)
      ensures IsQuiet(world) ==> LeftQuietly(way, i, world, x.cells, y.cells)
    {
      DispatchTurned(id, from, past, x, past', y, way, i, config, world, IsQuiet(world));
      if IsQuiet(world) {
        QuietTurnSeen(way, i, world, from, past, x, past', y);
      }
    }

    lemma QuietTurnSeen(way: Way, i: nat, world: World, from: Snap, past: Past, x: Snap, past': Past, y: Snap)
      requires Stands(id, from, past, x, Idle) && GoodCells(x.s)
      requires Stands(id, from, past', y, if FateOf(way).WasConsumed? then Consuming(i) else Idle)
      requires past'.labels == past.labels + Body(way, i, id, config, world) && Suits(way, world.provider)
      requires way.Unreported? ==>
                 !Enabled(AfterCall(x.s, i, id, config, world), PublisherRuns.Report(id, config, world))
      ensures LeftQuietly(way, i, world, x.cells, y.cells)
    {
      var body := Body(way, i, id, config, world);
      Steps.Append(from.s, past.labels, body, Do);
      if way.Untouched? {
        SameState(x, y);
      } else {
        EnabledSince(from.s, past.labels, body, id);
        QuietTurn(x.s, way, i, id, config, world, y.s);
        CellsFollow(x, y, i);
      }
    }

    lemma SameState(x: Snap, y: Snap)
      requires Holds(x.s, x.cells, x.log) && Holds(y.s, y.cells, y.log) && x.s == y.s
      ensures x.cells == y.cells
    {
      assert forall j :: j in x.cells <==> j in y.cells;
    }

    lemma CellsFollow(x: Snap, y: Snap, i: nat)
      requires Holds(x.s, x.cells, x.log) && Holds(y.s, y.cells, y.log) && OnlyChanges(x.s, y.s, i)
      ensures forall j {:trigger j in y.cells} :: j in x.cells <==> j in y.cells
      ensures forall j {:trigger j in x.cells} | j in x.cells && j != i :: y.cells[j] == x.cells[j]
      ensures i in x.s.items && i in y.s.items ==>
                && i in x.cells && i in y.cells
                && x.s.items[i].cell == x.cells[i] && y.s.items[i].cell == y.cells[i]
    {
      forall j {:trigger j in y.cells} | true
        ensures j in x.cells <==> j in y.cells
      {
        assert j in x.s.items <==> j in y.s.items;
      }
      forall j | j in x.cells && j != i
        ensures y.cells[j] == x.cells[j]
      {
        assert j in x.s.items && j in y.s.items;
      }
    }

    method TryDispatch(row: PRow, world: World, ghost from: Snap, ghost past: Past, s: Sys)
      returns (way: Way, i: nat, ghost past': Past, s': Sys)
      requires At(from, past, s, Idle) && OthersOnly(world, id) && Starts(from, row) && row.payload.DispatchPayload?
      modifies actions, outbox
      ensures At(from, past', s', if FateOf(way).WasConsumed? then Consuming(i) else Idle)
      ensures Adds(past, Body(way, i, id, config, world), {}, IsQuiet(world), past')
      ensures Suits(way, world.provider) && (way != Untouched ==> Dispatches(row, from.cells, i))
      ensures FateOf(way).WasConsumed? ==> SettledFor(actions.actionsById, row)
      ensures way.Untouched? <==> !CanDispatch(row)
      ensures IsQuiet(world) && way.Unreported? ==>
                !Enabled(AfterCall(s, i, id, config, world), PublisherRuns.Report(id, config, world))
    {
      way, i, past', s' := Untouched, 0, past, s;
      AddsNothing(past, IsQuiet(world));
      if config.dispatchConfigured && row.payload.request.Some? {
        way, i, past', s' := Dispatch(row, row.payload.request.value, world, from, past, s);
      }
    }

    /** Claim, and go on as the claim says. */
    method Dispatch(row: PRow, q: DispatchIds, world: World, ghost from: Snap, ghost past: Past, s: Sys)
      returns (way: Way, i: nat, ghost past': Past, s': Sys)
      requires At(from, past, s, Idle) && OthersOnly(world, id) && Starts(from, row)
      requires row.payload == DispatchPayload(Some(q)) && config.dispatchConfigured
      modifies actions, outbox
      ensures At(from, past', s', if FateOf(way).WasConsumed? then Consuming(i) else Idle)
      ensures Adds(past, Body(way, i, id, config, world), {}, IsQuiet(world), past')
      ensures Suits(way, world.provider) && (way != Untouched ==> Dispatches(row, from.cells, i))
      ensures FateOf(way).WasConsumed? ==> SettledNamed(actions.actionsById, q)
      ensures way.Untouched? <==> !CanClaim(q)
      ensures IsQuiet(world) && way.Unreported? ==>
                !Enabled(AfterCall(s, i, id, config, world), PublisherRuns.Report(id, config, world))
    {
      way := Untouched;
      var d;
      ghost var pc;
      d, i, pc, past', s' := ClaimFirst(row, q, world, from, past, s);
      if d.Some? {
        ghost var claimed := past';
        way, past', s' := GoOn(d.value, q, i, world, from, past', s', pc);
        AddsThen(past, Head(i, id, config, world), IsQuiet(world), claimed, Rest(way, id, config, world), {}, past');
      }
    }

    method GoOn(d: EA.Disposition, q: DispatchIds, i: nat, world: World, ghost from: Snap, ghost past: Past, s: Sys,
                ghost pc: Pc)
      returns (way: Way, ghost past': Past, s': Sys)
      requires At(from, past, s, pc) && OthersOnly(world, id) && Claims(Some(d), i, pc, from.cells, q)
      requires d == EA.SettledAlready ==> SettledNamed(actions.actionsById, q)
      modifies actions, outbox
      ensures At(from, past', s', if FateOf(way).WasConsumed? then Consuming(i) else Idle)
      ensures Adds(past, Rest(way, id, config, world), {}, IsQuiet(world), past')
      ensures Suits(way, world.provider) && way != Untouched
      ensures FateOf(way).WasConsumed? ==> SettledNamed(actions.actionsById, q)
      ensures IsQuiet(world) && way.Unreported? && ValidIds(q) ==>
                !Enabled(Do(s, Call(id, config, world)), PublisherRuns.Report(id, config, world))
    {
      past', s' := past, s;
      AddsNothing(past, IsQuiet(world));
      match d {
        case Deferred => way := Deferring;
        case InFlight => way := Deferring;
        case SettledAlready => way := Settling;
        case Claimed =>
          way, past', s' := Ask(q, i, PcOf(s, id).attempt, world, from, past, s);
      }
    }

    /** The row asks for the dispatch of this action, and dispatch is configured. */
    ghost predicate Dispatches(row: PRow, cells: Repo.Cells, i: nat) {
      config.dispatchConfigured && i in cells && Asks(row.payload, cells[i])
    }

    lemma StillReady(row: PRow, i: nat, from: Snap, past: Past, s: Sys, pc: Pc)
      requires At(from, past, s, pc) && IsListed(row, from.log) && Dispatches(row, from.cells, i)
      ensures IsReady(row, i, actions.actionsById, outbox.Log())
    {
      StaysListed(row, from.log, outbox.Log(), past.theirs + past.mine);
    }

    /** Until the mark: the settled action stays settled. */
    method WaitToMark(row: PRow, i: nat, world: World, ghost from: Snap, ghost past: Past, s: Sys)
      returns (ghost past': Past, s': Sys)
      requires At(from, past, s, Consuming(i)) && OthersOnly(world, id) && SettledFor(actions.actionsById, row)
      requires IsListed(row, from.log) && Dispatches(row, from.cells, i)
      modifies actions, outbox
      ensures At(from, past', s', Consuming(i)) && IsReady(row, i, actions.actionsById, outbox.Log())
      ensures SettledFor(actions.actionsById, row)
      ensures Adds(past, [], {}, IsQuiet(world), past')
      ensures IsQuiet(world) ==> actions.actionsById == old(actions.actionsById)
    {
      ghost var before := actions.actionsById;
      past', s' := Wait(AtConsume, world, from, past, s, Consuming(i));
      SettledForAdvances(before, actions.actionsById, row);
      StillReady(row, i, from, past', s', Consuming(i));
    }

    /** The mark of a dispatched row, or a throw. */
    method MarkDispatched(row: PRow, i: nat, world: World, ghost from: Snap, ghost past: Past, s: Sys)
      returns (ghost past': Past, s': Sys)
      requires At(from, past, s, Consuming(i)) && OthersOnly(world, id) && IsListed(row, from.log)
      requires Dispatches(row, from.cells, i) && SettledFor(actions.actionsById, row)
      modifies actions, outbox
      ensures At(from, past', s', Idle) && SettledFor(actions.actionsById, row)
      ensures Adds(past, [Ending(world.consume, id)], MarkIf(world.consume, row.id), IsQuiet(world), past')
      ensures IsQuiet(world) ==> actions.actionsById == old(actions.actionsById)
    {
      past', s' := WaitToMark(row, i, world, from, past, s);
      ghost var waited := past';
      past', s' := MarkOrThrow(row, i, world, from, past', s');
      AddsWaited(past, IsQuiet(world), waited, [Ending(world.consume, id)], MarkIf(world.consume, row.id), past');
    }

    method MarkOrThrow(row: PRow, i: nat, world: World, ghost from: Snap, ghost past: Past, s: Sys)
      returns (ghost past': Past, s': Sys)
      requires At(from, past, s, Consuming(i)) && IsReady(row, i, actions.actionsById, outbox.Log())
      modifies outbox
      ensures At(from, past', s', Idle) && actions.actionsById == old(actions.actionsById)
      ensures Adds(past, [Ending(world.consume, id)], MarkIf(world.consume, row.id), IsQuiet(world), past')
    {
      if world.consume {
        past', s' := MarkNow(row.id, row.identity.tenantId, i, world, from, past, s);
      } else {
        past', s' := Throw(from, past, s, Consuming(i));
      }
      AddsEnding(past, world.consume, id, row.id, IsQuiet(world), past');
    }

    method MarkNow(n: nat, tenantId: string, i: nat, world: World, ghost from: Snap, ghost past: Past, s: Sys)
      returns (ghost past': Past, s': Sys)
      requires At(from, past, s, Consuming(i)) && i in actions.actionsById && 1 <= n <= |outbox.Log()|
      requires outbox.Log()[n - 1].identity.tenantId == tenantId
      requires Asks(outbox.Log()[n - 1].payload, actions.actionsById[i])
      modifies outbox
      ensures At(from, past', s', Idle) && past' == Marking(Then(past, Consume(id)), n)
      ensures actions.actionsById == old(actions.actionsById)
    {
      ghost var x := Now(s);
      MarkRow(n, tenantId, world.consumeAt);
      past', s' := Marking(Then(past, Consume(id)), n), ConsumeStep(s, id);
      MarkArrives(id, from, past, x, i, n, world.consumeAt, Now(s'));
    }

    /** Dispatch, and mark the row when its action is settled; with the effects of this, in order. */
    method DispatchRow(row: PRow, world: World, ghost from: Snap, ghost past: Past, s: Sys)
      returns (fate: Fate, told: seq<Effect>, way: Way, i: nat, ghost past': Past, s': Sys)
      requires At(from, past, s, Idle) && OthersOnly(world, id) && Starts(from, row) && row.payload.DispatchPayload?
      modifies actions, outbox
      ensures At(from, past', s', Idle) && Dispatched(row, fate, way, i, world, from.cells)
      ensures Adds(past, Script(way, i, id, config, world), Marks(row.id, fate), IsQuiet(world), past')
      ensures Tells(fate, ActionSettled(row.id), row.id, told)
      ensures fate.WasConsumed? ==> SettledFor(actions.actionsById, row)
      ensures Shown(row, fate, way, i, world, from.s, past'.labels, |past.labels|, old(actions.actionsById),
                    actions.actionsById)
    {
      ghost var cells := actions.actionsById;
      way, i, past', s' := DispatchN8nAction(row, world, from, past, s);
      fate, told := FinalFate(way, world), DispatchTold(row.id, way, world);
      DispatchTells(row.id, way, world);
      ghost var sent, mid := past', actions.actionsById;
      past', s' := MarkIfSettled(row, way, i, world, from, past, past', s');
      DispatchShows(row, way, i, world, from.s, sent.labels, past'.labels, |past.labels|, cells, mid,
                    actions.actionsById);
    }

    /** The mark, where the dispatch settled the action or found it settled. */
    method MarkIfSettled(row: PRow, way: Way, i: nat, world: World, ghost from: Snap, ghost start: Past,
                         ghost past: Past, s: Sys)
      returns (ghost past': Past, s': Sys)
      requires At(from, past, s, if FateOf(way).WasConsumed? then Consuming(i) else Idle) && OthersOnly(world, id)
      requires Adds(start, Body(way, i, id, config, world), {}, IsQuiet(world), past) && IsListed(row, from.log)
      requires FateOf(way).WasConsumed? ==>
                 Dispatches(row, from.cells, i) && SettledFor(actions.actionsById, row)
      modifies actions, outbox
      ensures At(from, past', s', Idle) && past.labels <= past'.labels
      ensures Adds(start, Script(way, i, id, config, world), Marks(row.id, FinalFate(way, world)), IsQuiet(world),
                   past')
      ensures IsQuiet(world) ==> actions.actionsById == old(actions.actionsById)
      ensures FateOf(way).WasConsumed? ==> SettledFor(actions.actionsById, row)
    {
      past', s' := past, s;
      if FateOf(way).WasConsumed? {
        past', s' := MarkDispatched(row, i, world, from, past, s);
        AddsScript(start, way, i, id, config, world, row.id, IsQuiet(world), past, past');
      } else {
        BodyIsScript(start, way, i, id, config, world, row.id, IsQuiet(world), past);
      }
    }

    lemma DispatchShows(row: PRow, way: Way, i: nat, world: World, start: Sys, labels: seq<Label>, all: seq<Label>,
                        base: nat, before: Repo.Cells, mid: Repo.Cells, after: Repo.Cells)
      requires row.payload.DispatchPayload? && (way.Untouched? <==> !CanDispatch(row)) && labels <= all
      requires Turned(way, i, id, config, world, start, labels, base)
      requires IsQuiet(world) ==> LeftQuietly(way, i, world, before, mid) && after == mid
      ensures Shown(row, FinalFate(way, world), way, i, world, start, all, base, before, after)
    {
      TurnedExtends(way, i, id, config, world, start, labels, all, base, base);
    }

    /** The operational state can be saved: nothing it needs is missing, and no write throws. */
    predicate CanSave(row: PRow, world: World) {
      match row.payload
      case IncidentPayload(key) => config.incidentsConfigured ==> key.Some? && world.incidentWrite
      case DeadLetterPayload(key) =>
        && key.Some? && (config.incidentsConfigured ==> world.incidentWrite)
        && (config.healthConfigured ==> world.healthWrite)
      case _ => true
    }

    /** What one turn shows: the fate by what happened, and the action by its fields and its ledger. */
    ghost predicate Shown(row: PRow, fate: Fate, way: Way, i: nat, world: World, start: Sys, labels: seq<Label>,
                          base: nat, before: Repo.Cells, after: Repo.Cells) {
      match row.payload
      case DispatchPayload(_) =>
        && (way.Untouched? <==> !CanDispatch(row))
        && (fate.WasConsumed? <==> world.consume && (way.Settling? || way.Reporting?))
        && (fate.WasDeferred? <==> way.Deferring? || way.Retrying?)
        && Turned(way, i, id, config, world, start, labels, base)
        && (IsQuiet(world) ==> LeftQuietly(way, i, world, before, after))
      case _ =>
        && !fate.WasDeferred?
        && (fate.WasConsumed? <==> CanSave(row, world) && world.publish && world.consume)
    }

    /** How a dispatch row's fate goes with the way it went. */
    ghost predicate Dispatched(row: PRow, fate: Fate, way: Way, i: nat, world: World, cells: Repo.Cells) {
      match way
      case Untouched => fate == ThrewUp
      case _ => Suits(way, world.provider) && Dispatches(row, cells, i) && fate == FinalFate(way, world)
    }

    /** Publish a row that is not a dispatch, and mark it; with the effects of this, in order. */
    method PublishRow(row: PRow, world: World, ghost from: Snap, ghost past: Past, s: Sys)
      returns (fate: Fate, told: seq<Effect>, ghost past': Past, s': Sys)
      requires At(from, past, s, Idle) && OthersOnly(world, id) && IsListed(row, from.log)
      requires !row.payload.DispatchPayload?
      modifies actions, outbox
      ensures At(from, past', s', Idle) && !fate.WasDeferred?
      ensures Adds(past, [], Marks(row.id, fate), IsQuiet(world), past')
      ensures Tells(fate, Published(row.id), row.id, told)
      ensures fate.WasConsumed? <==> world.publish && world.consume
    {
      past', s' := Wait(AtPublish, world, from, past, s, Idle);
      fate, told := ThrewUp, [];
      if world.publish {
        ghost var sent := past';
        fate, past', s' := MarkAfterPublish(row, world, from, past', s');
        AddsWaited(past, IsQuiet(world), sent, [], Marks(row.id, fate), past');
        told := [Published(row.id)] + (if fate.WasConsumed? then [RowConsumed(row.id)] else []);
      }
    }

    method MarkAfterPublish(row: PRow, world: World, ghost from: Snap, ghost past: Past, s: Sys)
      returns (fate: Fate, ghost past': Past, s': Sys)
      requires At(from, past, s, Idle) && OthersOnly(world, id) && IsListed(row, from.log)
      requires !row.payload.DispatchPayload?
      modifies actions, outbox
      ensures At(from, past', s', Idle) && !fate.WasDeferred?
      ensures Adds(past, [], Marks(row.id, fate), IsQuiet(world), past')
      ensures fate.WasConsumed? <==> world.consume
    {
      past', s' := Wait(AtConsume, world, from, past, s, Idle);
      fate := ThrewUp;
      if world.consume {
        ghost var waited := past';
        past' := MarkPublished(row, world, from, past', s');
        fate := WasConsumed;
        AddsMark(waited, Crash(id), row.id, IsQuiet(world));
        AddsWaited(past, IsQuiet(world), waited, [], {row.id}, past');
      }
    }

    method MarkPublished(row: PRow, world: World, ghost from: Snap, ghost past: Past, ghost s: Sys)
      returns (ghost past': Past)
      requires At(from, past, s, Idle) && IsListed(row, from.log) && !row.payload.DispatchPayload?
      modifies outbox
      ensures At(from, past', s, Idle) && past' == Marking(past, row.id)
    {
      ghost var x := Now(s);
      StaysListed(row, from.log, x.log, past.theirs + past.mine);
      MarkRow(row.id, row.identity.tenantId, world.consumeAt);
      OtherMarkArrives(id, from, past, x, row.id, world.consumeAt, Now(s));
      past' := Marking(past, row.id);
    }

    /** What one turn leaves: the journal, and the action when the row was consumed. */
    ghost predicate Outcome(row: PRow, fate: Fate, started: seq<Effect>, now: seq<Effect>, store: Repo.Cells) {
      match fate
      case WasConsumed => SettledFor(store, row) && now == started + Trail(config, row)
      case WasDeferred => row.payload.DispatchPayload? && now == started
      case ThrewUp => started <= now && now < started + Trail(config, row)
    }

    /** Only dispatch rows take a claim. */
    ghost predicate Goes(row: PRow, fate: Fate, way: Way, i: nat, world: World, cells: Repo.Cells) {
      match way
      case Untouched => row.payload.DispatchPayload? ==> fate == ThrewUp
      case _ => row.payload.DispatchPayload? && Dispatched(row, fate, way, i, world, cells)
    }

    /** One turn of the loop. */
    method HandleRow(row: PRow, world: World, s: Sys)
      returns (fate: Fate, way: Way, i: nat, ghost past: Past, s': Sys)
      requires InState(s) && PcOf(s, id).Idle? && IsListed(row, outbox.Log()) && OthersOnly(world, id)
      modifies this`journal, actions, outbox
      ensures At(old(Now(s)), past, s', Idle)
      ensures Adds(Nothing, Script(way, i, id, config, world), Marks(row.id, fate), IsQuiet(world), past)
      ensures Goes(row, fate, way, i, world, old(actions.actionsById))
      ensures Outcome(row, fate, old(journal), journal, actions.actionsById)
      ensures Shown(row, fate, way, i, world, s, past.labels, 0, old(actions.actionsById), actions.actionsById)
      ensures Lives(row, fate, i, world, old(actions.actionsById)) && (fate.ThrewUp? ==> MayThrow(row, world))
    {
      ghost var from, written := Now(s), journal;
      WentNowhere(id, from);
      past, s' := Wait(AtSave, world, from, Nothing, s, Idle);
      ghost var waited := past;
      fate, way, i, past, s' := SaveAndDeliver(row, world, from, past, s', written);
      TurnEnds(row, fate, way, i, world, from, waited, s', past, actions.actionsById);
    }

    /** All the turn shows, from its very start. */
    lemma TurnEnds(row: PRow, fate: Fate, way: Way, i: nat, world: World, from: Snap, waited: Past, s: Sys, past: Past,
                   after: Repo.Cells)
      requires Adds(Nothing, [], {}, IsQuiet(world), waited)
      requires Adds(waited, Script(way, i, id, config, world), Marks(row.id, fate), IsQuiet(world), past)
      requires Shown(row, fate, way, i, world, from.s, past.labels, |waited.labels|, from.cells, after)
      requires Goes(row, fate, way, i, world, from.cells)
      ensures Adds(Nothing, Script(way, i, id, config, world), Marks(row.id, fate), IsQuiet(world), past)
      ensures Shown(row, fate, way, i, world, from.s, past.labels, 0, from.cells, after)
      ensures Lives(row, fate, i, world, from.cells) && (fate.ThrewUp? ==> MayThrow(row, world))
    {
      AddsWaited(Nothing, IsQuiet(world), waited, Script(way, i, id, config, world), Marks(row.id, fate), past);
      if row.payload.DispatchPayload? {
        TurnedExtends(way, i, id, config, world, from.s, past.labels, past.labels, |waited.labels|, 0);
      }
      TurnLives(row, fate, way, i, world, from.s, past.labels, from.cells, after);
    }

    lemma TurnLives(row: PRow, fate: Fate, way: Way, i: nat, world: World, start: Sys, labels: seq<Label>,
                    before: Repo.Cells, after: Repo.Cells)
      requires Shown(row, fate, way, i, world, start, labels, 0, before, after)
      requires Goes(row, fate, way, i, world, before)
      ensures Lives(row, fate, i, world, before) && (fate.ThrewUp? ==> MayThrow(row, world))
    {
    }

    /** Nothing about the row, the configuration or the calls is at fault. */
    predicate Faultless(row: PRow, world: World) {
      match row.payload
      case DispatchPayload(_) =>
        && CanDispatch(row) && world.consume && !world.provider.Throws?
        && (world.provider.Retryable? ==> config.retryBackoffMs > 0)
      case _ => CanSave(row, world) && world.publish && world.consume
    }

    /**
     * Without faults and left alone, a row is consumed; a dispatch is put off
     * only where n8n asks for it, or another lease or a retry time stands.
     */
    ghost predicate Lives(row: PRow, fate: Fate, i: nat, world: World, before: Repo.Cells) {
      match row.payload
      case DispatchPayload(_) =>
        IsQuiet(world) && Faultless(row, world) ==>
          && i in before && Asks(row.payload, before[i])
          && (fate.WasDeferred? <==>
                && !IsSettled(before[i].action)
                && (world.provider.Retryable? || EA.HeldBack(before[i].action, world.claimAt)))
          && (fate.WasConsumed? <==> !fate.WasDeferred?)
      case _ => Faultless(row, world) ==> fate.WasConsumed?
    }

    method SaveAndDeliver(row: PRow, world: World, ghost from: Snap, ghost past: Past, s: Sys,
                          ghost started: seq<Effect>)
      returns (fate: Fate, way: Way, i: nat, ghost past': Past, s': Sys)
      requires At(from, past, s, Idle) && OthersOnly(world, id) && Starts(from, row) && journal == started
      modifies this`journal, actions, outbox
      ensures At(from, past', s', Idle) && Goes(row, fate, way, i, world, from.cells)
      ensures Adds(past, Script(way, i, id, config, world), Marks(row.id, fate), IsQuiet(world), past')
      ensures Outcome(row, fate, started, journal, actions.actionsById)
      ensures Shown(row, fate, way, i, world, from.s, past'.labels, |past.labels|, old(actions.actionsById),
                    actions.actionsById)
    {
      var saved := PersistOperationalState(row, world);
      if saved {
        fate, way, i, past', s' := Deliver(row, world, from, past, s, started);
      } else {
        fate, way, i, past', s' := ThrewUp, Untouched, 0, past, s;
        AddsNothing(past, IsQuiet(world));
        TrailIsLonger(row, started, journal);
      }
    }

    lemma TrailIsLonger(row: PRow, started: seq<Effect>, now: seq<Effect>)
      requires now < started + Saves(config, row) + [RowConsumed(row.id)] && started <= now
      requires !row.payload.DispatchPayload?
      ensures started <= now && now < started + Trail(config, row)
    {
      assert |now| <= |started + Saves(config, row)|;
      assert now == (started + Saves(config, row) + [RowConsumed(row.id)])[..|now|];
      assert now == (started + Trail(config, row))[..|now|];
    }

    method Deliver(row: PRow, world: World, ghost from: Snap, ghost past: Past, s: Sys, ghost started: seq<Effect>)
      returns (fate: Fate, way: Way, i: nat, ghost past': Past, s': Sys)
      requires At(from, past, s, Idle) && OthersOnly(world, id) && Starts(from, row)
      requires journal == started + Saves(config, row) && CanSave(row, world)
      modifies this`journal, actions, outbox
      ensures At(from, past', s', Idle) && Goes(row, fate, way, i, world, from.cells)
      ensures Adds(past, Script(way, i, id, config, world), Marks(row.id, fate), IsQuiet(world), past')
      ensures Outcome(row, fate, started, journal, actions.actionsById)
      ensures Shown(row, fate, way, i, world, from.s, past'.labels, |past.labels|, old(actions.actionsById),
                    actions.actionsById)
    {
      var told;
      fate, told, way, i, past', s' := Send(row, world, from, past, s);
      journal := journal + told;
      TrailTold(row, fate, started, told, journal, actions.actionsById);
    }

    /** Dispatch or publish. */
    method Send(row: PRow, world: World, ghost from: Snap, ghost past: Past, s: Sys)
      returns (fate: Fate, told: seq<Effect>, way: Way, i: nat, ghost past': Past, s': Sys)
      requires At(from, past, s, Idle) && OthersOnly(world, id) && Starts(from, row) && CanSave(row, world)
      modifies actions, outbox
      ensures At(from, past', s', Idle) && Goes(row, fate, way, i, world, from.cells)
      ensures Adds(past, Script(way, i, id, config, world), Marks(row.id, fate), IsQuiet(world), past')
      ensures Shown(row, fate, way, i, world, from.s, past'.labels, |past.labels|, old(actions.actionsById),
                    actions.actionsById)
      ensures Tells(fate, Sent(row), row.id, told) && (fate.WasDeferred? ==> row.payload.DispatchPayload?)
      ensures fate.WasConsumed? ==> SettledFor(actions.actionsById, row)
    {
      if row.payload.DispatchPayload? {
        fate, told, way, i, past', s' := DispatchRow(row, world, from, past, s);
      } else {
        way, i := Untouched, 0;
        fate, told, past', s' := PublishRow(row, world, from, past, s);
        assert Script(Untouched, 0, id, config, world) == [];
      }
    }

    function Sent(row: PRow): Effect {
      if row.payload.DispatchPayload? then ActionSettled(row.id) else Published(row.id)
    }

    /** What the journal says of a row, in terms of its trail. */
    lemma TrailTold(row: PRow, fate: Fate, started: seq<Effect>, told: seq<Effect>, after: seq<Effect>,
                    store: Repo.Cells)
      requires Tells(fate, Sent(row), row.id, told) && after == started + Saves(config, row) + told
      requires fate.WasDeferred? ==> row.payload.DispatchPayload?
      requires fate.WasConsumed? ==> SettledFor(store, row)
      ensures Outcome(row, fate, started, after, store)
    {
      var full := started + Trail(config, row);
      assert full == started + Saves(config, row) + ([Sent(row)] + [RowConsumed(row.id)]);
      assert started + Saves(config, row) + [Sent(row)] + [RowConsumed(row.id)] == full;
      if fate.ThrewUp? {
        assert after == full[..|after|] && started == full[..|started|];
      }
    }

    // ── The batch ──────────────────────────────────────────────────────────

    /** One turn of the loop, seen from the batch it belongs to. */
    method HandleNext(ghost b: Batch, row: PRow, ghost fates: seq<Fate>, world: World, ghost from: Snap,
                      ghost past: Past,
                      s: Sys) returns (fate: Fate, ghost past': Past, s': Sys)
      requires At(from, past, s, Idle) && OthersOnly(world, id) && b.log == from.log && GoodBatch(b.log, b.rows)
      requires |fates| < |b.rows| && row == b.rows[|fates|] && AllAccounted(actions.actionsById, b.rows, fates)
      modifies this`journal, actions, outbox
      ensures At(from, past', s', Idle) && past'.mine == past.mine + Marks(row.id, fate)
      ensures IsQuiet(world) ==> past'.theirs == past.theirs && past'.added == past.added
      ensures fate.ThrewUp? ==> MayThrow(row, world)
      ensures AllAccounted(actions.actionsById, b.rows, if fate.ThrewUp? then fates else fates + [fate])
      ensures Outcome(row, fate, old(journal), journal, actions.actionsById)
    {
      ghost var mid := Now(s);
      StaysListed(row, from.log, mid.log, past.theirs + past.mine);
      ghost var more, own;
      fate, more, own, s' := TakeTurn(row, world, s);
      past' := TurnJoined(row, fate, own, world, from, past, mid, more, s');
      AccountedNext(mid.cells, actions.actionsById, b.rows, fates, fate);
    }

    /** A turn, for the batch: how it goes is all one, what comes of it is not. */
    method TakeTurn(row: PRow, world: World, s: Sys)
      returns (fate: Fate, ghost past: Past, ghost own: seq<Label>, s': Sys)
      requires InState(s) && PcOf(s, id).Idle? && IsListed(row, outbox.Log()) && OthersOnly(world, id)
      modifies this`journal, actions, outbox
      ensures At(old(Now(s)), past, s', Idle)
      ensures Adds(Nothing, own, Marks(row.id, fate), IsQuiet(world), past)
      ensures Outcome(row, fate, old(journal), journal, actions.actionsById)
      ensures fate.ThrewUp? ==> MayThrow(row, world)
    {
      var way, i;
      fate, way, i, past, s' := HandleRow(row, world, s);
      own := Script(way, i, id, config, world);
    }

    lemma TurnJoined(row: PRow, fate: Fate, own: seq<Label>, world: World, from: Snap, past: Past, mid: Snap,
                     more: Past,
                     s': Sys) returns (all: Past)
      requires Went(id, from, past, mid) && At(mid, more, s', Idle)
      requires Adds(Nothing, own, Marks(row.id, fate), IsQuiet(world), more)
      ensures At(from, all, s', Idle) && all.mine == past.mine + Marks(row.id, fate)
      ensures IsQuiet(world) ==> all.theirs == past.theirs && all.added == past.added
    {
      WentOn(id, from, past, mid, more, Now(s'));
      all := Followed(past, more);
    }

    lemma AccountedNext(before: Repo.Cells, after: Repo.Cells, rows: seq<PRow>, fates: seq<Fate>, fate: Fate)
      requires |fates| < |rows| && AllAccounted(before, rows, fates) && StoreAdvances(before, after)
      requires fate.ThrewUp? || Accounted(after, rows[|fates|], fate)
      ensures AllAccounted(after, rows, if fate.ThrewUp? then fates else fates + [fate])
    {
      forall j | 0 <= j < |fates|
        ensures Accounted(after, rows[j], fates[j])
      {
        if fates[j].WasConsumed? {
          SettledForAdvances(before, after, rows[j]);
        }
      }
    }

    /**
     * Drains one tenant's batch. Returns what became of each row handled before
     * the end or an exception, whether it threw, and the count it reports.
     */
    method PublishPendingForTenant(tenantId: string, limit: nat, world: nat -> World, s: Sys)
      returns (fates: seq<Fate>, threw: bool, publishedCount: nat, ghost past: Past, s': Sys)
      requires InState(s) && PcOf(s, id).Idle? && forall k: nat :: OthersOnly(world(k), id)
      modifies this`journal, actions, outbox
      ensures At(old(Now(s)), past, s', Idle)
      ensures var rows := Unconsumed(old(outbox.Log()), tenantId, limit);
              && |fates| <= |rows| && (threw <==> |fates| < |rows|)
              && Handled(Batch(old(outbox.Log()), rows), fates, publishedCount, outbox.Log(), actions.actionsById,
                         past.theirs)
              && Journalled(config, rows, fates, threw, old(journal), journal)
              && (threw ==> MayThrow(rows[|fates|], world(rows[|fates|].id)))
      ensures (forall k: nat :: IsQuiet(world(k))) ==> past.theirs == {} && past.added == 0
    {
      var rows := outbox.ListUnconsumed(tenantId, limit);
      ListedRowsAreDistinctPending(outbox.Log(), tenantId, limit);
      fates, threw, publishedCount, past, s' := PublishAll(rows, world, s);
    }

    /** Others act while the row is handled, or something about it is at fault. */
    ghost predicate MayThrow(row: PRow, world: World) {
      match row
      case Row(_, _, _, _, _) => !(IsQuiet(world) && Faultless(row, world))
    }

    /** The loop over the rows that were listed. */
    method PublishAll(rows: seq<PRow>, world: nat -> World, s: Sys)
      returns (fates: seq<Fate>, threw: bool, publishedCount: nat, ghost past: Past, s': Sys)
      requires InState(s) && PcOf(s, id).Idle? && (forall k: nat :: OthersOnly(world(k), id))
      requires GoodBatch(outbox.Log(), rows)
      modifies this`journal, actions, outbox
      ensures At(old(Now(s)), past, s', Idle)
      ensures |fates| <= |rows| && (threw <==> |fates| < |rows|)
      ensures Handled(Batch(old(outbox.Log()), rows), fates, publishedCount, outbox.Log(), actions.actionsById,
                      past.theirs)
      ensures Journalled(config, rows, fates, threw, old(journal), journal)
      ensures (forall k: nat :: IsQuiet(world(k))) ==> past.theirs == {} && past.added == 0
      ensures threw ==> MayThrow(rows[|fates|], world(rows[|fates|].id))
    {
      ghost var from, b := Now(s), Batch(outbox.Log(), rows);
      WentNowhere(id, from);
      fates, threw, publishedCount, past, s' := [], false, 0, Nothing, s;
      assert Journalled(config, rows, [], false, journal, journal);
      while |fates| < |rows| && !threw
        invariant |fates| <= |rows| && (threw ==> |fates| < |rows|)
        invariant Through(from, past, s', rows, fates, publishedCount)
        invariant Journalled(config, rows, fates, threw, old(journal), journal)
        invariant (forall k: nat :: IsQuiet(world(k))) ==> past.theirs == {} && past.added == 0
        invariant threw ==> MayThrow(rows[|fates|], world(rows[|fates|].id))
        decreases !threw, |rows| - |fates|
      {
        var row := rows[|fates|];
        var fate;
        fate, past, s' := HandleAndTell(b, row, fates, publishedCount, world(row.id), from, past, s', old(journal));
        threw := fate.ThrewUp?;
        publishedCount := publishedCount + (if fate.WasConsumed? then 1 else 0);
        fates := if threw then fates else fates + [fate];
      }
      ThroughIsHandled(from, past, s', rows, fates, publishedCount);
    }

    /** Where the batch stands. */
    ghost predicate Through(from: Snap, past: Past, s: Sys, rows: seq<PRow>, fates: seq<Fate>, count: nat)
      requires |fates| <= |rows|
      reads outbox, actions
    {
      match past
      case Past(_, _, _, mine, _) =>
        && At(from, past, s, Idle) && mine == ConsumedIds(rows, fates)
        && AllAccounted(actions.actionsById, rows, fates) && count == Consumptions(fates)
    }

    lemma ThroughIsHandled(from: Snap, past: Past, s: Sys, rows: seq<PRow>, fates: seq<Fate>, count: nat)
      requires |fates| <= |rows| && Through(from, past, s, rows, fates, count)
      ensures Handled(Batch(from.log, rows), fates, count, outbox.Log(), actions.actionsById, past.theirs)
    {
    }

    method HandleAndTell(ghost b: Batch, row: PRow, ghost fates: seq<Fate>, ghost count: nat, world: World,
                         ghost from: Snap, ghost past: Past, s: Sys, ghost start: seq<Effect>)
      returns (fate: Fate, ghost past': Past, s': Sys)
      requires |fates| < |b.rows| && Through(from, past, s, b.rows, fates, count) && OthersOnly(world, id)
      requires b.log == from.log && GoodBatch(b.log, b.rows) && row == b.rows[|fates|]
      requires Journalled(config, b.rows, fates, false, start, journal)
      modifies this`journal, actions, outbox
      ensures fate.ThrewUp? ==>
                && Through(from, past', s', b.rows, fates, count)
                && Journalled(config, b.rows, fates, true, start, journal)
      ensures !fate.ThrewUp? ==>
                && Through(from, past', s', b.rows, fates + [fate], count + (if fate.WasConsumed? then 1 else 0))
                && Journalled(config, b.rows, fates + [fate], false, start, journal)
      ensures IsQuiet(world) ==> past'.theirs == past.theirs && past'.added == past.added
      ensures fate.ThrewUp? ==> MayThrow(row, world)
    {
      ghost var written := journal;
      fate, past', s' := HandleNext(b, row, fates, world, from, past, s);
      ConsumedIdsNext(b.rows, fates, fate);
      OutcomeTold(b.rows, fates, fate, start, written, journal, actions.actionsById);
    }

    lemma OutcomeTold(rows: seq<PRow>, fates: seq<Fate>, fate: Fate, start: seq<Effect>, before: seq<Effect>,
                      after: seq<Effect>, store: Repo.Cells)
      requires |fates| < |rows| && Journalled(config, rows, fates, false, start, before)
      requires Outcome(rows[|fates|], fate, before, after, store)
      ensures if fate.ThrewUp? then Journalled(config, rows, fates, true, start, after)
              else Journalled(config, rows, fates + [fate], false, start, after)
    {
      if !fate.ThrewUp? {
        JournalGoesOn(config, rows, fates, fate, start, before, after);
      }
    }
  }
}
