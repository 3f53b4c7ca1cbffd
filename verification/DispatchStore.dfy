/**
 * The external-action repository and the outbox in the terms of
 * `DispatchProtocol`: an item is an action, and it is consumed when the row
 * that asks for its dispatch is. What each repository call does to one is what
 * the protocol's step does to the other, whichever worker makes it.
 */
module DispatchStore {
  import opened Text
  import opened Outbox
  import opened DispatchProtocol
  import EA = ExternalActions
  import Repo = ExternalActionsRepository
  import StableJson

  /** A row's payload as its event type's schema reads it; None when the schema rejects it. */
  datatype Payload =
    | DispatchPayload(request: Option<DispatchIds>)
    | IncidentPayload(incidentKey: Option<string>)
    | DeadLetterPayload(incidentKey: Option<string>)
    | OtherPayload

  datatype DispatchIds = DispatchIds(tenantId: string, actionId: string, idempotencyKey: string)

  type PRow = Row<Payload>

  type PLog = seq<PRow>

  predicate Fits(cell: EA.Cell, q: DispatchIds) {
    Repo.Matches(cell, q.tenantId, q.actionId, q.idempotencyKey)
  }

  function NamesOf(r: StableJson.Request): DispatchIds {
    DispatchIds(r.tenantId, r.actionId, r.idempotencyKey)
  }

  /** The payload asks for the dispatch of this action. */
  predicate Asks(p: Payload, cell: EA.Cell) {
    p.DispatchPayload? && p.request.Some? && Fits(cell, p.request.value)
  }

  predicate IsRequest(p: Payload) {
    p.DispatchPayload? && p.request.Some?
  }

  // ── Both stores as one state ─────────────────────────────────────────────

  predicate SameName(a: EA.Cell, b: EA.Cell) {
    a.action.request.tenantId == b.action.request.tenantId && a.action.request.actionId == b.action.request.actionId
  }

  /** Action ids name one cell each, and no two actions of a tenant share their action id. */
  ghost predicate UniqueNames(cells: Repo.Cells) {
    forall i, j {:trigger i in cells, j in cells} | i in cells && j in cells ::
      && cells[i].action.id == i
      && (SameName(cells[i], cells[j]) ==> i == j)
  }

  /** An action has at most one dispatch row. */
  ghost predicate OneRowEach(cells: Repo.Cells, log: PLog) {
    forall id, i, j {:trigger Asks(log[i].payload, cells[id]), Asks(log[j].payload, cells[id])} |
      && id in cells && 0 <= i < |log| && 0 <= j < |log|
      && Asks(log[i].payload, cells[id]) && Asks(log[j].payload, cells[id]) :: i == j
  }

  ghost predicate Stored(cells: Repo.Cells, q: DispatchIds) {
    exists id :: id in cells && Fits(cells[id], q)
  }

  /** The same, for callers to whom it is all one which action it is. */
  ghost predicate IsKnown(cells: Repo.Cells, q: DispatchIds) {
    match q
    case DispatchIds(_, _, _) => Stored(cells, q)
  }

  /** A dispatch row was written together with its action. */
  ghost predicate RowsHaveActions(cells: Repo.Cells, log: PLog) {
    forall i | 0 <= i < |log| && IsRequest(log[i].payload) :: Stored(cells, log[i].payload.request.value)
  }

  ghost predicate RowConsumed(log: PLog, cell: EA.Cell) {
    exists i :: 0 <= i < |log| && Asks(log[i].payload, cell) && log[i].consumedAt.Some?
  }

  ghost predicate SameItems(items: map<nat, Item>, cells: Repo.Cells, log: PLog) {
    && (forall id :: id in items <==> id in cells)
    && (forall id {:trigger id in items} | id in items ::
          items[id].cell == cells[id] && (items[id].consumed <==> RowConsumed(log, cells[id])))
  }

  ghost predicate Holds(s: Sys, cells: Repo.Cells, log: PLog) {
    match s
    case Sys(items, _) =>
      UniqueNames(cells) && OneRowEach(cells, log) && RowsHaveActions(cells, log) && SameItems(items, cells, log)
  }

  // ── How the stores may move ──────────────────────────────────────────────

  /** Stored actions keep their request, and settled ones stay settled. */
  ghost predicate StoreAdvances(before: Repo.Cells, after: Repo.Cells) {
    forall id {:trigger id in before} | id in before ::
      && id in after && after[id].action.request == before[id].action.request
      && (EA.IsSettled(before[id].action.state) ==> EA.IsSettled(after[id].action.state))
  }

  lemma AdvancesTransitive(a: Repo.Cells, b: Repo.Cells, c: Repo.Cells)
    requires StoreAdvances(a, b) && StoreAdvances(b, c)
    ensures StoreAdvances(a, c)
  {
    forall id | id in a
      ensures id in c && c[id].action.request == a[id].action.request
      ensures EA.IsSettled(a[id].action.state) ==> EA.IsSettled(c[id].action.state)
    {
      assert id in b;
    }
  }

  /** The row is the same but for a time of consumption. */
  predicate SameRow(a: PRow, b: PRow) {
    b == a.(consumedAt := b.consumedAt) && (a.consumedAt.Some? ==> b.consumedAt.Some?)
  }

  /** Rows were appended, and rows of these ids consumed; no other row changed. */
  ghost predicate LogMoves(before: PLog, after: PLog, ids: set<nat>) {
    && |before| <= |after|
    && forall i | 0 <= i < |before| ::
         if i + 1 in ids then SameRow(before[i], after[i]) && after[i].consumedAt.Some? else after[i] == before[i]
  }

  lemma MovesTransitive(a: PLog, b: PLog, c: PLog, ids: set<nat>, more: set<nat>)
    requires LogMoves(a, b, ids) && LogMoves(b, c, more)
    ensures LogMoves(a, c, ids + more)
  {
  }

  lemma ConsumingMoves(log: PLog, n: nat, at: int)
    requires 1 <= n <= |log|
    ensures LogMoves(log, Consumed(log, n, at), {n})
  {
  }

  lemma EnqueueingMoves(log: PLog, c: Command<Payload>, now: int)
    ensures LogMoves(log, Enqueued(log, c, now), {})
  {
  }

  // ── The protocol's state follows ─────────────────────────────────────────

  lemma MovingHolds(s: Sys, cells: Repo.Cells, log: PLog, w: nat, pc: Pc)
    requires Holds(s, cells, log)
    ensures Holds(Goto(s, w, pc), cells, log)
  {
  }

  /** A later version of one cell, with the same request. */
  lemma ReplacingHolds(s: Sys, cells: Repo.Cells, log: PLog, id: nat, item: Item)
    requires Holds(s, cells, log) && id in s.items && item.consumed == s.items[id].consumed
    requires item.cell.action.id == id && item.cell.action.request == cells[id].action.request
    ensures Holds(s.(items := s.items[id := item]), cells[id := item.cell], log)
  {
    var cells' := cells[id := item.cell];
    forall x, p: Payload | x in cells
      ensures Asks(p, cells'[x]) <==> Asks(p, cells[x])
    {
    }
    assert forall x {:trigger x in cells'} :: x in cells' <==> x in cells;
    forall x, i, j | x in cells' && 0 <= i < |log| && 0 <= j < |log|
                     && Asks(log[i].payload, cells'[x]) && Asks(log[j].payload, cells'[x])
      ensures i == j
    {
      assert Asks(log[i].payload, cells[x]) && Asks(log[j].payload, cells[x]);
    }
    RowsStillHaveActions(cells, cells', log);
    SameConsumption(cells, cells', log, id);
  }

  lemma SameConsumption(cells: Repo.Cells, cells': Repo.Cells, log: PLog, id: nat)
    requires id in cells && id in cells' && cells'[id].action.request == cells[id].action.request
    ensures RowConsumed(log, cells'[id]) <==> RowConsumed(log, cells[id])
  {
    assert forall p: Payload :: Asks(p, cells'[id]) <==> Asks(p, cells[id]);
  }

  ghost predicate SameRequests(cells: Repo.Cells, cells': Repo.Cells) {
    forall x {:trigger x in cells} | x in cells ::
      x in cells' && cells'[x].action.request == cells[x].action.request
  }

  lemma RowsStillHaveActions(cells: Repo.Cells, cells': Repo.Cells, log: PLog)
    requires RowsHaveActions(cells, log) && SameRequests(cells, cells')
    ensures RowsHaveActions(cells', log)
  {
    forall i | 0 <= i < |log| && IsRequest(log[i].payload)
      ensures Stored(cells', log[i].payload.request.value)
    {
      var x :| x in cells && Fits(cells[x], log[i].payload.request.value);
      assert x in cells' && Fits(cells'[x], log[i].payload.request.value);
    }
  }

  /** Consuming a row consumes the item it asks for, and no other. */
  lemma ConsumingHolds(s: Sys, cells: Repo.Cells, log: PLog, id: nat, n: nat, at: int)
    requires Holds(s, cells, log) && id in s.items && 1 <= n <= |log| && Asks(log[n - 1].payload, cells[id])
    ensures Holds(s.(items := s.items[id := s.items[id].(consumed := true)]), cells, Consumed(log, n, at))
  {
    var log' := Consumed(log, n, at);
    SameAsking(cells, log, n, at);
    forall x | x in cells && x != id
      ensures RowConsumed(log', cells[x]) <==> RowConsumed(log, cells[x])
    {
      assert !Asks(log[n - 1].payload, cells[x]);
      OthersStay(log, cells[x], n, at);
    }
    assert Asks(log'[n - 1].payload, cells[id]);
  }

  /** A row that asks for nothing changes no item when it is consumed. */
  lemma ForeignRowHolds(s: Sys, cells: Repo.Cells, log: PLog, n: nat, at: int)
    requires Holds(s, cells, log) && 1 <= n <= |log| && !IsRequest(log[n - 1].payload)
    ensures Holds(s, cells, Consumed(log, n, at))
  {
    SameAsking(cells, log, n, at);
    forall x | x in cells
      ensures RowConsumed(Consumed(log, n, at), cells[x]) <==> RowConsumed(log, cells[x])
    {
      OthersStay(log, cells[x], n, at);
    }
  }

  lemma SameAsking(cells: Repo.Cells, log: PLog, n: nat, at: int)
    requires OneRowEach(cells, log) && RowsHaveActions(cells, log) && 1 <= n <= |log|
    ensures OneRowEach(cells, Consumed(log, n, at)) && RowsHaveActions(cells, Consumed(log, n, at))
  {
    var log' := Consumed(log, n, at);
    assert forall i | 0 <= i < |log| :: log'[i].payload == log[i].payload;
    forall x, i, j | x in cells && 0 <= i < |log| && 0 <= j < |log|
                     && Asks(log'[i].payload, cells[x]) && Asks(log'[j].payload, cells[x])
      ensures i == j
    {
      assert Asks(log[i].payload, cells[x]) && Asks(log[j].payload, cells[x]);
    }
  }

  lemma OthersStay(log: PLog, cell: EA.Cell, n: nat, at: int)
    requires 1 <= n <= |log| && !Asks(log[n - 1].payload, cell)
    ensures RowConsumed(Consumed(log, n, at), cell) <==> RowConsumed(log, cell)
  {
    var log' := Consumed(log, n, at);
    if RowConsumed(log, cell) {
      var i :| 0 <= i < |log| && Asks(log[i].payload, cell) && log[i].consumedAt.Some?;
      assert log'[i] == log[i];
    }
    if RowConsumed(log', cell) {
      var i :| 0 <= i < |log'| && Asks(log'[i].payload, cell) && log'[i].consumedAt.Some?;
      assert log'[i] == log[i];
    }
  }

  /** A new action has no row yet. */
  lemma AddingHolds(s: Sys, cells: Repo.Cells, log: PLog, id: nat, r: StableJson.Request, now: int)
    requires Holds(s, cells, log) && id !in cells
    requires forall x {:trigger x in cells} | x in cells :: !Repo.SharesName(cells[x], r)
    ensures Holds(Do(s, Enqueue(id, r, now)), cells[id := EA.NewCell(id, r, now)], log)
  {
    var cell := EA.NewCell(id, r, now);
    AddingCellHolds(s, cells, log, id, cell);
    assert Do(s, Enqueue(id, r, now)) == s.(items := s.items[id := Item(cell, false, [])]);
  }

  lemma AddingCellHolds(s: Sys, cells: Repo.Cells, log: PLog, id: nat, cell: EA.Cell)
    requires Holds(s, cells, log) && id !in cells && cell.action.id == id
    requires forall x {:trigger x in cells} | x in cells :: !Repo.SharesName(cells[x], cell.action.request)
    ensures Holds(s.(items := s.items[id := Item(cell, false, [])]), cells[id := cell], log)
  {
    NothingAsks(cells, log, cell);
    AddingKeepsOneRow(cells, log, id, cell);
    AddingKeepsNames(cells, id, cell);
    RowsStillHaveActions(cells, cells[id := cell], log);
  }

  lemma AddingKeepsNames(cells: Repo.Cells, id: nat, cell: EA.Cell)
    requires UniqueNames(cells) && id !in cells && cell.action.id == id
    requires forall x {:trigger x in cells} | x in cells :: !Repo.SharesName(cells[x], cell.action.request)
    ensures UniqueNames(cells[id := cell])
  {
    assert forall x {:trigger x in cells} | x in cells :: !SameName(cells[x], cell) && !SameName(cell, cells[x]);
  }

  lemma AddingKeepsOneRow(cells: Repo.Cells, log: PLog, id: nat, cell: EA.Cell)
    requires OneRowEach(cells, log) && NoneAsks(log, cell)
    ensures OneRowEach(cells[id := cell], log)
  {
    var cells' := cells[id := cell];
    forall x, i, j | x in cells' && 0 <= i < |log| && 0 <= j < |log|
                     && Asks(log[i].payload, cells'[x]) && Asks(log[j].payload, cells'[x])
      ensures i == j
    {
      assert x != id && Asks(log[i].payload, cells[x]) && Asks(log[j].payload, cells[x]);
    }
  }

  ghost predicate NoneAsks(log: PLog, cell: EA.Cell) {
    forall i | 0 <= i < |log| :: !Asks(log[i].payload, cell)
  }

  lemma NothingAsks(cells: Repo.Cells, log: PLog, cell: EA.Cell)
    requires RowsHaveActions(cells, log)
    requires forall x {:trigger x in cells} | x in cells :: !Repo.SharesName(cells[x], cell.action.request)
    ensures NoneAsks(log, cell)
  {
    forall i | 0 <= i < |log| && IsRequest(log[i].payload)
      ensures !Asks(log[i].payload, cell)
    {
      var x :| x in cells && Fits(cells[x], log[i].payload.request.value);
      assert !Repo.SharesName(cells[x], cell.action.request);
    }
  }

  ghost predicate IsNew(cells: Repo.Cells, after: Repo.Cells, log: PLog, i: nat, r: StableJson.Request) {
    i in after && after[i].action.request == r && NoneAsks(log, after[i]) && StoreAdvances(cells, after)
  }

  lemma RequestHolds(s: Sys, cells: Repo.Cells, after: Repo.Cells, log: PLog, request: StableJson.Request, now: int,
                     r: EA.Result<(EA.Action, bool)>)
    requires Holds(s, cells, log) && r.Ok? && !r.value.1 && Repo.Admitted(cells, after, r, request, now)
    ensures Holds(Do(s, Enqueue(r.value.0.id, request, now)), after, log)
    ensures IsNew(cells, after, log, r.value.0.id, request)
  {
    var i := r.value.0.id;
    AddingHolds(s, cells, log, i, request, now);
    NewIsNew(cells, log, i, EA.NewCell(i, request, now));
  }

  lemma NewIsNew(cells: Repo.Cells, log: PLog, i: nat, cell: EA.Cell)
    requires RowsHaveActions(cells, log) && i !in cells
    requires forall x {:trigger x in cells} | x in cells :: !Repo.SharesName(cells[x], cell.action.request)
    ensures IsNew(cells, cells[i := cell], log, i, cell.action.request)
  {
    NothingAsks(cells, log, cell);
  }

  /** The row that asks for an action no row asks for yet, or a row that asks for nothing. */
  lemma EnqueueingHolds(s: Sys, cells: Repo.Cells, log: PLog, c: Command<Payload>, now: int)
    requires Holds(s, cells, log)
    requires IsRequest(c.payload) ==>
               && Stored(cells, c.payload.request.value)
               && forall x, i | x in cells && 0 <= i < |log| && Asks(c.payload, cells[x]) ::
                    !Asks(log[i].payload, cells[x])
    ensures Holds(s, cells, Enqueued(log, c, now))
  {
    if !Has(log, c.identity) {
      var row := Row(|log| + 1, c.identity, c.payload, now, None);
      var log' := log + [row];
      assert forall i | 0 <= i < |log| :: log'[i] == log[i];
      forall x, i, j | x in cells && 0 <= i < |log'| && 0 <= j < |log'|
                       && Asks(log'[i].payload, cells[x]) && Asks(log'[j].payload, cells[x])
        ensures i == j
      {
        if i < |log| && j < |log| {
          assert Asks(log[i].payload, cells[x]) && Asks(log[j].payload, cells[x]);
        }
      }
      forall x | x in cells
        ensures RowConsumed(log', cells[x]) <==> RowConsumed(log, cells[x])
      {
        ConsumedAppend(log, row, cells[x]);
      }
    }
  }

  lemma ConsumedAppend(log: PLog, row: PRow, cell: EA.Cell)
    requires row.consumedAt.None?
    ensures RowConsumed(log + [row], cell) <==> RowConsumed(log, cell)
  {
    if RowConsumed(log, cell) {
      var i :| 0 <= i < |log| && Asks(log[i].payload, cell) && log[i].consumedAt.Some?;
      assert (log + [row])[i] == log[i];
    }
  }

  // ── Repository calls as steps ────────────────────────────────────────────

  function AfterClaim(d: EA.Disposition, id: nat, attempt: nat): Pc {
    match d
    case Claimed => Calling(id, attempt)
    case SettledAlready => Consuming(id)
    case _ => Idle
  }

  /** The ids a call was made with name the stored action. */
  lemma NamedIsIt(cells: Repo.Cells, q: DispatchIds, id: nat, other: nat)
    requires UniqueNames(cells) && id in cells && Fits(cells[id], q)
    requires Repo.Named(cells, other, q.tenantId, q.actionId, q.idempotencyKey)
    ensures other == id
  {
    assert SameName(cells[id], cells[other]);
  }

  lemma ClaimHolds(s: Sys, cells: Repo.Cells, after: Repo.Cells, log: PLog, w: nat, q: DispatchIds,
                   owner: string, duration: int, now: int, r: EA.Result<(EA.Disposition, EA.Action)>)
    requires Holds(s, cells, log) && PcOf(s, w).Listed? && PcOf(s, w).id in cells && Fits(cells[PcOf(s, w).id], q)
    requires r.Ok? && Repo.ClaimedOn(cells, after, r, q.tenantId, q.actionId, q.idempotencyKey, owner, duration, now)
    ensures var s' := Do(s, TryClaim(w, owner, duration, now));
            && r.value.1.id == PcOf(s, w).id && Holds(s', after, log) && StoreAdvances(cells, after)
            && PcOf(s', w) == AfterClaim(r.value.0, r.value.1.id, r.value.1.dispatchAttempts)
  {
    var id := PcOf(s, w).id;
    NamedIsIt(cells, q, id, r.value.1.id);
    var c' := EA.Claim(cells[id], owner, duration, now);
    ReplacingHolds(s, cells, log, id, s.items[id].(cell := c'));
    if r.value.0.Claimed? {
      MovingHolds(SetCell(s, id, c'), after, log, w, Calling(id, c'.action.dispatchAttempts));
    } else {
      assert after == cells;
      MovingHolds(s, cells, log, w, AfterClaim(r.value.0, id, 0));
    }
  }

  predicate ValidIds(q: DispatchIds) {
    Repo.ValidIdentity(q.tenantId, q.actionId, q.idempotencyKey)
  }

  /** A claim of a stored action is answered exactly when its ids are valid and it asks for a proper lease. */
  lemma ClaimAnsweredIff(cells: Repo.Cells, after: Repo.Cells, q: DispatchIds, owner: string, duration: int, now: int,
                         r: EA.Result<(EA.Disposition, EA.Action)>)
    requires Repo.ClaimedOn(cells, after, r, q.tenantId, q.actionId, q.idempotencyKey, owner, duration, now)
    requires r == EA.Err(EA.InvalidInput) <==> !ValidIds(q)
    ensures r.Ok? ==> ValidIds(q) && owner != "" && duration > 0
    ensures IsKnown(cells, q) && ValidIds(q) && owner != "" && duration > 0 ==> r.Ok?
  {
  }

  /** A claim that finds the action settled. */
  lemma ClaimSettled(cells: Repo.Cells, after: Repo.Cells, q: DispatchIds, id: nat, owner: string, duration: int,
                     now: int, r: EA.Result<(EA.Disposition, EA.Action)>)
    requires r.Ok? && r.value.1.id == id
    requires Repo.ClaimedOn(cells, after, r, q.tenantId, q.actionId, q.idempotencyKey, owner, duration, now)
    ensures r.value.0.SettledAlready? ==> SettledNamed(after, q)
  {
    if r.value.0.SettledAlready? {
      assert id in after && EA.IsSettled(after[id].action.state) && Fits(after[id], q);
    }
  }

  lemma CallHolds(s: Sys, cells: Repo.Cells, log: PLog, w: nat, r: ProviderResult)
    requires Holds(s, cells, log)
    ensures Holds(Do(s, CallProvider(w, r)), cells, log)
  {
    if PcOf(s, w).Calling? && PcOf(s, w).id in s.items {
      var Calling(id, attempt) := PcOf(s, w);
      var item := s.items[id].(calls := s.items[id].calls + [attempt]);
      ReplacingHolds(s, cells, log, id, item);
      assert cells[id := item.cell] == cells;
      MovingHolds(s.(items := s.items[id := item]), cells, log, w, if r.Threw? then Idle else Called(id, attempt, r));
    }
  }

  /** One cell replaced by a later one with the same request. */
  ghost predicate Replaces(cells: Repo.Cells, after: Repo.Cells, id: nat, c: EA.Cell) {
    && id in cells && after == cells[id := c]
    && c.action.id == id && c.action.request == cells[id].action.request
  }

  lemma ReportReplaces(cells: Repo.Cells, after: Repo.Cells, id: nat, q: DispatchIds, owner: string,
                       report: EA.Report, now: int, r: EA.Result<EA.Action>)
    requires UniqueNames(cells) && id in cells && Fits(cells[id], q)
    requires r.Ok? && Repo.Reported(cells, after, r, q.tenantId, q.actionId, q.idempotencyKey, owner, report, now)
    ensures EA.ReportDispatch(cells[id], owner, report, now).Ok?
    ensures Replaces(cells, after, id, EA.ReportDispatch(cells[id], owner, report, now).value)
    ensures StoreAdvances(cells, after)
  {
    NamedIsIt(cells, q, id, r.value.id);
  }

  /** A refused report is one the protocol refuses. */
  lemma ReportRefused(cells: Repo.Cells, after: Repo.Cells, id: nat, q: DispatchIds, owner: string,
                      report: EA.Report, now: int, r: EA.Result<EA.Action>)
    requires UniqueNames(cells) && id in cells && Fits(cells[id], q)
    requires r.Err? && r.error != EA.InvalidInput
    requires Repo.Reported(cells, after, r, q.tenantId, q.actionId, q.idempotencyKey, owner, report, now)
    ensures EA.ReportDispatch(cells[id], owner, report, now).Err?
  {
    if !(report.RetryAfter? && report.delay <= 0) && r.error.StateError? {
      var x :| Repo.Named(cells, x, q.tenantId, q.actionId, q.idempotencyKey)
               && !EA.IsSettled(cells[x].action.state) && !EA.Holds(cells[x].action, owner);
      NamedIsIt(cells, q, id, x);
    }
  }

  lemma CallGoesOn(s: Sys, cells: Repo.Cells, log: PLog, w: nat, i: nat, n: nat, r: ProviderResult)
    requires Holds(s, cells, log) && PcOf(s, w) == Calling(i, n) && i in cells
    ensures PcOf(Do(s, CallProvider(w, r)), w) == if r.Threw? then Idle else Called(i, n, r)
  {
  }

  lemma ReportHolds(s: Sys, cells: Repo.Cells, after: Repo.Cells, log: PLog, w: nat, q: DispatchIds,
                    owner: string, code: string, now: int, r: EA.Result<EA.Action>)
    requires Holds(s, cells, log) && PcOf(s, w).Called? && PcOf(s, w).id in cells && Fits(cells[PcOf(s, w).id], q)
    requires r.Ok? && Repo.Reported(cells, after, r, q.tenantId, q.actionId, q.idempotencyKey, owner,
                                    ReportOf(PcOf(s, w).result, code), now)
    ensures var s' := Do(s, ReportBack(w, owner, code, now));
            && Holds(s', after, log) && StoreAdvances(cells, after)
            && PcOf(s', w) == if PcOf(s, w).result.Retryable? then Idle else Consuming(PcOf(s, w).id)
  {
    ReportReplaces(cells, after, PcOf(s, w).id, q, owner, ReportOf(PcOf(s, w).result, code), now, r);
    ReportStage(s, cells, log, w, owner, code, now);
  }

  lemma ReportStage(s: Sys, cells: Repo.Cells, log: PLog, w: nat, owner: string, code: string, now: int)
    requires Holds(s, cells, log) && PcOf(s, w).Called? && PcOf(s, w).id in cells
    requires EA.ReportDispatch(cells[PcOf(s, w).id], owner, ReportOf(PcOf(s, w).result, code), now).Ok?
    ensures var s', id := Do(s, ReportBack(w, owner, code, now)), PcOf(s, w).id;
            var c' := EA.ReportDispatch(cells[id], owner, ReportOf(PcOf(s, w).result, code), now).value;
            && Holds(s', cells[id := c'], log)
            && PcOf(s', w) == if PcOf(s, w).result.Retryable? then Idle else Consuming(id)
  {
    var Called(id, attempt, result) := PcOf(s, w);
    var c' := EA.ReportDispatch(cells[id], owner, ReportOf(result, code), now).value;
    ReplacingHolds(s, cells, log, id, s.items[id].(cell := c'));
    MovingHolds(SetCell(s, id, c'), cells[id := c'], log, w, if result.Retryable? then Idle else Consuming(id));
  }

  /** A report that settles the action leaves it settled. */
  lemma ReportSettles(cells: Repo.Cells, after: Repo.Cells, q: DispatchIds, owner: string, report: EA.Report, now: int,
                      r: EA.Result<EA.Action>)
    requires r.Ok? && !report.RetryAfter?
    requires Repo.Reported(cells, after, r, q.tenantId, q.actionId, q.idempotencyKey, owner, report, now)
    ensures SettledNamed(after, q)
  {
    var id := r.value.id;
    assert id in after && EA.IsSettled(after[id].action.state) && Fits(after[id], q);
  }

  lemma ConsumeHolds(s: Sys, cells: Repo.Cells, log: PLog, w: nat, n: nat, at: int)
    requires Holds(s, cells, log) && PcOf(s, w).Consuming? && PcOf(s, w).id in cells
    requires 1 <= n <= |log| && Asks(log[n - 1].payload, cells[PcOf(s, w).id])
    ensures Holds(Do(s, Consume(w)), cells, Consumed(log, n, at)) && PcOf(Do(s, Consume(w)), w).Idle?
  {
    var id := PcOf(s, w).id;
    ConsumingHolds(s, cells, log, id, n, at);
    var items := s.items[id := s.items[id].(consumed := true)];
    MovingHolds(s.(items := items), cells, Consumed(log, n, at), w, Idle);
  }

  lemma CallbackReplaces(cells: Repo.Cells, after: Repo.Cells, id: nat, cb: string, completed: bool, code: string,
                         now: int, r: EA.Result<(EA.Action, bool)>)
    requires UniqueNames(cells) && id in cells && r.Ok?
    requires var q := NamesOf(cells[id].action.request);
             Repo.ClosedBy(cells, after, r, q.tenantId, q.actionId, q.idempotencyKey, cb, completed, code, now)
    ensures EA.RecordOutcome(cells[id], cb, completed, code, now).Ok?
    ensures Replaces(cells, after, id, EA.RecordOutcome(cells[id], cb, completed, code, now).value)
    ensures StoreAdvances(cells, after)
  {
    NamedIsIt(cells, NamesOf(cells[id].action.request), id, r.value.0.id);
  }

  lemma CallbackHolds(s: Sys, cells: Repo.Cells, after: Repo.Cells, log: PLog, id: nat, cb: string, completed: bool,
                      code: string, now: int)
    requires Holds(s, cells, log) && id in cells && EA.RecordOutcome(cells[id], cb, completed, code, now).Ok?
    requires Replaces(cells, after, id, EA.RecordOutcome(cells[id], cb, completed, code, now).value)
    ensures Holds(Do(s, CallbackArrives(id, cb, completed, code, now)), after, log)
  {
    ReplacingHolds(s, cells, log, id, s.items[id].(cell := after[id]));
  }

  /** The action named by the ids is stored and settled. */
  ghost predicate SettledNamed(store: Repo.Cells, q: DispatchIds) {
    exists id :: id in store && EA.IsSettled(store[id].action.state) && Fits(store[id], q)
  }

  // ── Where these conditions come from ─────────────────────────────────────

  lemma EmptyStoresHold()
    ensures Holds(Start, map[], [])
  {
  }

  /** The repository's own invariant gives each action id one cell, and each name one action. */
  lemma StoredNamesAreUnique(b: Repo.Books)
    requires Repo.Coherent(b)
    ensures UniqueNames(b.cells)
  {
    forall i, j | i in b.cells && j in b.cells && SameName(b.cells[i], b.cells[j])
      ensures i == j
    {
      Repo.SameActionSameId(b.actionIndex, b.cells, i, j);
    }
  }

  /** Dispatch rows are enqueued under the tenant and idempotency key of the action they ask for. */
  ghost predicate EnqueuedAsRequested(log: PLog, eventType: string) {
    forall i | 0 <= i < |log| && IsRequest(log[i].payload) ::
      var q := log[i].payload.request.value; log[i].identity == Identity(q.tenantId, eventType, q.idempotencyKey)
  }

  /** The outbox's deduplication then leaves each action at most one dispatch row. */
  lemma DispatchRowsAreUnique(cells: Repo.Cells, log: PLog, eventType: string)
    requires WellFormed(log) && EnqueuedAsRequested(log, eventType)
    ensures OneRowEach(cells, log)
  {
    forall id, i, j | id in cells && 0 <= i < |log| && 0 <= j < |log|
                      && Asks(log[i].payload, cells[id]) && Asks(log[j].payload, cells[id])
      ensures i == j
    {
      assert log[i].identity == log[j].identity;
    }
  }

  /** What the protocol promises is so in the repositories. */
  lemma ConsumedRowsAreSettled(s: Sys, cells: Repo.Cells, log: PLog, id: nat)
    requires Inv(s) && Holds(s, cells, log) && id in cells && RowConsumed(log, cells[id])
    ensures EA.IsSettled(cells[id].action.state)
  {
    assert id in s.items && GoodItem(s.items[id]);
  }
}
