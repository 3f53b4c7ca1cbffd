/**
 * `InMemoryExternalActionsRepository`
 * (packages/db/src/external-actions-repository.ts): two maps of colon-joined
 * keys in front of a store of actions and their ledgers. The specification is
 * the store alone; the methods are proved to find by index what a scan of the
 * store would find, and to do to that one cell what `ExternalActions` says.
 */
module ExternalActionsRepository {
  import opened Text
  import opened ExternalActions
  import StableJson
  import opened KeyIndex
  import Outbox

  /** `actionsById` and `eventsByActionId` as one map. */
  type Cells = map<nat, Cell>

  /** Event type and idempotency key of a command handed to the outbox repository. */
  datatype Emission =
    | DispatchRequested(tenantId: string, idempotencyKey: string)
    | Dispatched(id: nat, attempt: nat)
    | RetryScheduled(id: nat, attempt: nat)
    | FailedDispatch(id: nat)
    | CompletedBy(id: nat, callbackId: string)
    | FailedBy(id: nat, callbackId: string)
    | IncidentOpened(id: nat)

  function ActionKeys(cells: Cells): map<nat, string> {
    map id | id in cells :: Key(cells[id].action.request.tenantId, cells[id].action.request.actionId)
  }

  function IdempotencyKeys(cells: Cells): map<nat, string> {
    map id | id in cells :: Key(cells[id].action.request.tenantId, cells[id].action.request.idempotencyKey)
  }

  // ── The store ────────────────────────────────────────────────────────────

  predicate GoodCell(c: Cell, id: nat) {
    c.action.id == id && Outbox.IsUuid(c.action.request.tenantId) && Consistent(c)
  }

  ghost predicate Stored(cells: Cells, n: nat) {
    forall id {:trigger id in cells} | id in cells :: id <= n && GoodCell(cells[id], id)
  }

  /** The fields of the repository that must fit together. */
  datatype Books = Books(cells: Cells, actionIndex: Index, idempotencyIndex: Index, sequence: nat)

  ghost predicate Coherent(b: Books) {
    match b
    case Books(cells, byAction, byKey, n) =>
      Stored(cells, n) && Inverse(byAction, ActionKeys(cells)) && Inverse(byKey, IdempotencyKeys(cells))
  }

  lemma UpdateKeepsCoherent(b: Books, c: Cell)
    requires Coherent(b) && c.action.id in b.cells && Consistent(c)
    requires c.action.request == b.cells[c.action.id].action.request
    ensures Coherent(b.(cells := b.cells[c.action.id := c]))
  {
    UpdateKeepsKeys(b.cells, c);
  }

  lemma AddKeepsCoherent(b: Books, c: Cell)
    requires Coherent(b) && c.action.id == b.sequence + 1 && GoodCell(c, c.action.id)
    requires Key(c.action.request.tenantId, c.action.request.actionId) !in b.actionIndex
    requires Key(c.action.request.tenantId, c.action.request.idempotencyKey) !in b.idempotencyIndex
    ensures var ka := Key(c.action.request.tenantId, c.action.request.actionId);
            var ki := Key(c.action.request.tenantId, c.action.request.idempotencyKey);
            Coherent(Books(b.cells[c.action.id := c], b.actionIndex[ka := c.action.id],
                           b.idempotencyIndex[ki := c.action.id], c.action.id))
  {
    var ka := Key(c.action.request.tenantId, c.action.request.actionId);
    var ki := Key(c.action.request.tenantId, c.action.request.idempotencyKey);
    AddExtendsKeys(b.cells, c);
    AddKeepsInverse(b.actionIndex, ActionKeys(b.cells), c.action.id, ka);
    AddKeepsInverse(b.idempotencyIndex, IdempotencyKeys(b.cells), c.action.id, ki);
  }

  lemma UpdateKeepsKeys(cells: Cells, c: Cell)
    requires c.action.id in cells && c.action.request == cells[c.action.id].action.request
    ensures ActionKeys(cells[c.action.id := c]) == ActionKeys(cells)
    ensures IdempotencyKeys(cells[c.action.id := c]) == IdempotencyKeys(cells)
  {
  }

  lemma AddExtendsKeys(cells: Cells, c: Cell)
    requires c.action.id !in cells
    ensures ActionKeys(cells[c.action.id := c])
         == ActionKeys(cells)[c.action.id := Key(c.action.request.tenantId, c.action.request.actionId)]
    ensures IdempotencyKeys(cells[c.action.id := c])
         == IdempotencyKeys(cells)[c.action.id := Key(c.action.request.tenantId, c.action.request.idempotencyKey)]
  {
  }

  lemma ScanByAction(index: Index, cells: Cells, t: string, a: string)
    requires Inverse(index, ActionKeys(cells))
    ensures Key(t, a) in index ==> index[Key(t, a)] in cells
    ensures Key(t, a) in index && Outbox.IsUuid(t) && Outbox.IsUuid(cells[index[Key(t, a)]].action.request.tenantId) ==>
              var r := cells[index[Key(t, a)]].action.request; r.tenantId == t && r.actionId == a
    ensures Key(t, a) !in index ==>
              forall id {:trigger id in cells} | id in cells ::
                cells[id].action.request.tenantId != t || cells[id].action.request.actionId != a
  {
    var k := Key(t, a);
    if k in index {
      var r := cells[index[k]].action.request;
      if Outbox.IsUuid(t) && Outbox.IsUuid(r.tenantId) {
        KeyInjective(r.tenantId, r.actionId, t, a);
      }
    } else {
      assert forall id {:trigger id in cells} | id in cells :: id in ActionKeys(cells);
    }
  }

  lemma SameActionSameId(index: Index, cells: Cells, id: nat, id': nat)
    requires Inverse(index, ActionKeys(cells)) && id in cells && id' in cells
    ensures var r, r' := cells[id].action.request, cells[id'].action.request;
            r.tenantId == r'.tenantId && r.actionId == r'.actionId ==> id == id'
  {
    assert id in ActionKeys(cells) && id' in ActionKeys(cells);
  }

  lemma ScanByIdempotency(index: Index, cells: Cells, t: string, k: string)
    requires Inverse(index, IdempotencyKeys(cells))
    ensures Key(t, k) in index ==> index[Key(t, k)] in cells
    ensures Key(t, k) in index && Outbox.IsUuid(t) && Outbox.IsUuid(cells[index[Key(t, k)]].action.request.tenantId) ==>
              var r := cells[index[Key(t, k)]].action.request; r.tenantId == t && r.idempotencyKey == k
    ensures Key(t, k) !in index ==>
              forall id {:trigger id in cells} | id in cells ::
                cells[id].action.request.tenantId != t || cells[id].action.request.idempotencyKey != k
  {
    var j := Key(t, k);
    if j in index {
      var r := cells[index[j]].action.request;
      if Outbox.IsUuid(t) && Outbox.IsUuid(r.tenantId) {
        KeyInjective(r.tenantId, r.idempotencyKey, t, k);
      }
    } else {
      assert forall id {:trigger id in cells} | id in cells :: id in IdempotencyKeys(cells);
    }
  }

  // ── Validation ───────────────────────────────────────────────────────────

  predicate ValidText(s: string) {
    1 <= |StableJson.Utf16(s)| <= 255
  }

  predicate ValidActionType(s: string) {
    && 1 <= |s| <= 100 && Outbox.IsLower(s[0])
    && forall i | 1 <= i < |s| :: Outbox.IsTypeChar(s[i])
  }

  predicate ValidIdentity(tenantId: string, actionId: string, idempotencyKey: string) {
    Outbox.IsUuid(tenantId) && ValidText(actionId) && ValidText(idempotencyKey)
  }

  predicate ValidRequest(r: StableJson.Request) {
    match r
    case Request(tenantId, actionId, actionType, approvedBy, idempotencyKey, payload) =>
      && ValidIdentity(tenantId, actionId, idempotencyKey)
      && ValidActionType(actionType) && ValidText(approvedBy)
      && payload.Obj? && StableJson.WellFormed(payload)
  }

  predicate Matches(c: Cell, tenantId: string, actionId: string, idempotencyKey: string) {
    && c.action.request.tenantId == tenantId && c.action.request.actionId == actionId
    && c.action.request.idempotencyKey == idempotencyKey
  }

  /** Another action of the tenant already uses one of the request's two names. */
  predicate SharesName(c: Cell, r: StableJson.Request) {
    && c.action.request.tenantId == r.tenantId
    && (c.action.request.actionId == r.actionId || c.action.request.idempotencyKey == r.idempotencyKey)
  }

  // ── Emitted commands ─────────────────────────────────────────────────────

  /** What a report that takes effect hands to the outbox. */
  function ReportEmissions(a: Action, report: Report): seq<Emission> {
    match report
    case Accepted => [Emission.Dispatched(a.id, a.dispatchAttempts)]
    case RetryAfter(_, _) => [Emission.RetryScheduled(a.id, a.dispatchAttempts)]
    case FailedFor(_) => [FailedDispatch(a.id), IncidentOpened(a.id)]
  }

  function OutcomeEmissions(a: Action, callbackId: string, completed: bool): seq<Emission> {
    if completed then [CompletedBy(a.id, callbackId)] else [FailedBy(a.id, callbackId), IncidentOpened(a.id)]
  }

  // ── What the methods promise about the store ─────────────────────────────

  ghost predicate NoMatch(store: Cells, t: string, a: string, k: string) {
    forall id {:trigger id in store} | id in store :: !Matches(store[id], t, a, k)
  }

  /** The call named this stored cell. */
  ghost predicate Named(store: Cells, id: nat, t: string, a: string, k: string) {
    id in store && store[id].action.id == id && Matches(store[id], t, a, k)
  }

  /** A report on a valid identity: not found, refused, ignored by a settled action, or settled. */
  ghost predicate Reported(before: Cells, after: Cells, r: Result<Action>,
                           t: string, a: string, k: string, owner: string, report: Report, now: int)
  {
    match r
    case Ok(done) =>
      && Named(before, done.id, t, a, k)
      && var next := ReportDispatch(before[done.id], owner, report, now);
         next.Ok? && after == before[done.id := next.value] && done == next.value.action
    case Err(error) =>
      && after == before && error != Conflict
      && (error == NotFound ==> NoMatch(before, t, a, k))
      && (error == StateError ==>
            || (report.RetryAfter? && report.delay <= 0)
            || exists id :: Named(before, id, t, a, k)
                 && !IsSettled(before[id].action.state) && !Holds(before[id].action, owner))
  }

  /** A claim on a valid identity. */
  ghost predicate ClaimedOn(before: Cells, after: Cells, r: Result<(Disposition, Action)>,
                            t: string, a: string, k: string, owner: string, duration: int, now: int)
  {
    match r
    case Ok(done) =>
      && Named(before, done.1.id, t, a, k) && owner != "" && duration > 0
      && done.0 == ClaimDisposition(before[done.1.id].action, now)
      && after == before[done.1.id := Claim(before[done.1.id], owner, duration, now)]
      && done.1 == after[done.1.id].action
    case Err(error) =>
      && after == before && error != Conflict
      && (error == NotFound ==> NoMatch(before, t, a, k))
      && (error == StateError ==> owner == "" || duration <= 0)
  }

  /** A callback on a valid identity; the flag says whether it was already known. */
  ghost predicate ClosedBy(before: Cells, after: Cells, r: Result<(Action, bool)>,
                           t: string, a: string, k: string, callbackId: string, completed: bool, code: string, now: int)
  {
    match r
    case Ok(done) =>
      && Named(before, done.0.id, t, a, k)
      && var c := before[done.0.id];
         var next := RecordOutcome(c, callbackId, completed, code, now);
         && done.1 == HasKey(c.ledger, Callback(callbackId, completed))
         && next.Ok? && after == before[done.0.id := next.value] && done.0 == next.value.action
    case Err(error) =>
      && after == before
      && (error == NotFound ==> NoMatch(before, t, a, k))
      && (error == StateError ==>
            exists id :: Named(before, id, t, a, k) && IsTerminal(before[id].action.state)
                         && !HasKey(before[id].ledger, Callback(callbackId, completed)))
  }

  /** A valid request; the flag says whether it was a replay. */
  ghost predicate Admitted(before: Cells, after: Cells, r: Result<(Action, bool)>, request: StableJson.Request,
                           now: int) {
    match r
    case Ok((action, true)) =>
      && after == before && Named(before, action.id, request.tenantId, request.actionId, request.idempotencyKey)
      && action == before[action.id].action && action.requestDigest == StableJson.DigestText(request)
    case Ok((action, false)) =>
      && action.id !in before && after == before[action.id := NewCell(action.id, request, now)]
      && action == after[action.id].action
      && forall id {:trigger id in before} | id in before :: !SharesName(before[id], request)
    case Err(_) =>
      && after == before
      && exists id :: id in before && SharesName(before[id], request)
           && !(Named(before, id, request.tenantId, request.actionId, request.idempotencyKey)
                && before[id].action.requestDigest == StableJson.DigestText(request))
  }

  lemma SettleKeepsConsistent(c: Cell, owner: string, report: Report, now: int)
    requires Consistent(c) && Holds(c.action, owner) && !(report.RetryAfter? && report.delay <= 0)
    ensures Consistent(Settle(c, report, now)) && Settle(c, report, now) != c
  {
    NextKeepsConsistent(c, Step(ReportOp(owner, report), now));
  }

  /** The action came to this state. */
  predicate Became(before: Cell, after: Cell, state: State) {
    before.action.state != state && after.action.state == state
  }

  predicate Closes(after: Cell, entry: Entry) {
    |after.ledger| > 0 && after.ledger[|after.ledger| - 1] == entry
  }

  /** What an event says of the action, by its row and ledger. */
  predicate IsTrue(e: Emission, before: Cell, after: Cell) {
    match e
    case DispatchRequested(_, _) => false
    case Dispatched(id, attempt) =>
      id == after.action.id && Became(before, after, State.Dispatched) && Closes(after, DispatchAccepted(attempt))
    case RetryScheduled(id, attempt) =>
      id == after.action.id && Became(before, after, State.RetryScheduled) && Closes(after, RetryEntry(attempt))
    case FailedDispatch(id) =>
      && id == after.action.id && Became(before, after, Failed)
      && Closes(after, DispatchFailed(after.action.dispatchAttempts))
    case CompletedBy(id, callbackId) =>
      id == after.action.id && Became(before, after, Completed) && Closes(after, Callback(callbackId, true))
    case FailedBy(id, callbackId) =>
      id == after.action.id && Became(before, after, Failed) && Closes(after, Callback(callbackId, false))
    case IncidentOpened(id) => id == after.action.id && Became(before, after, Failed)
  }

  /**
   * The events of a call tell exactly what became of the action: each of them
   * is true, a completion is told once it is so, and a failure both as such and
   * as an incident.
   */
  ghost predicate Tells(before: Cell, after: Cell, events: seq<Emission>) {
    && (forall e | e in events :: IsTrue(e, before, after))
    && (Became(before, after, State.Dispatched) ==> exists e | e in events :: e.Dispatched?)
    && (Became(before, after, State.RetryScheduled) ==> exists e | e in events :: e.RetryScheduled?)
    && (Became(before, after, Completed) ==> exists e | e in events :: e.CompletedBy?)
    && (Became(before, after, Failed) ==>
          && (exists e | e in events :: e.FailedDispatch? || e.FailedBy?)
          && (exists e | e in events :: e.IncidentOpened?))
  }

  lemma ReportTells(c: Cell, owner: string, report: Report, now: int)
    requires Consistent(c) && Holds(c.action, owner) && !(report.RetryAfter? && report.delay <= 0)
    ensures var d := Settle(c, report, now); Tells(c, d, ReportEmissions(d.action, report))
  {
    ReportLeaves(c, owner, report, now);
    var d := Settle(c, report, now);
    var events := ReportEmissions(d.action, report);
    assert events[0] in events;
    if report.FailedFor? {
      assert events[1] in events;
    }
  }

  lemma OutcomeTells(c: Cell, callbackId: string, completed: bool, code: string, now: int)
    requires Consistent(c) && !IsTerminal(c.action.state)
    ensures var d := CloseWith(c, callbackId, completed, code, now);
            Tells(c, d, OutcomeEmissions(d.action, callbackId, completed))
  {
    CallbackCloses(c, callbackId, completed, code, now);
    var d := CloseWith(c, callbackId, completed, code, now);
    forall i | 0 <= i < |c.ledger|
      ensures !c.ledger[i].Callback?
    {
      OpenHistoryHasNoCallback(c.ledger, i);
    }
    var events := OutcomeEmissions(d.action, callbackId, completed);
    assert events[0] in events;
    if !completed {
      assert events[1] in events;
    }
  }

  /** Whatever the call did, the new events tell what became of the action it found. */
  ghost predicate Announced(before: Cells, after: Cells, id: nat, sent: seq<Emission>, all: seq<Emission>) {
    id in before && id in after && sent <= all && Tells(before[id], after[id], all[|sent|..])
  }

  lemma NothingToTell(cells: Cells, id: nat, sent: seq<Emission>)
    requires id in cells
    ensures Announced(cells, cells, id, sent, sent)
  {
  }

  // ── The class ────────────────────────────────────────────────────────────

  class InMemoryExternalActionsRepository {
    var actionsById: Cells
    var actionIndex: Index
    var idempotencyIndex: Index
    var sequence: nat
    /** Commands handed to the outbox repository, oldest first. */
    var emitted: seq<Emission>

    ghost predicate Valid()
      reads this
    {
      Coherent(Books(actionsById, actionIndex, idempotencyIndex, sequence))
    }

    constructor ()
      ensures Valid() && actionsById == map[] && emitted == []
    {
      actionsById, actionIndex, idempotencyIndex, sequence, emitted := map[], map[], map[], 0, [];
    }

    /** `validateDispatchIdentity`, then `find`. */
    method Find(tenantId: string, actionId: string, idempotencyKey: string) returns (r: Result<Action>)
      requires Valid()
      ensures r == Err(InvalidInput) <==> !ValidIdentity(tenantId, actionId, idempotencyKey)
      ensures r.Err? ==> r.error in {InvalidInput, NotFound}
      ensures r == Err(NotFound) ==> NoMatch(actionsById, tenantId, actionId, idempotencyKey)
      ensures r.Ok? ==> && Named(actionsById, r.value.id, tenantId, actionId, idempotencyKey)
                        && r.value == actionsById[r.value.id].action && Consistent(actionsById[r.value.id])
    {
      if !ValidIdentity(tenantId, actionId, idempotencyKey) {
        return Err(InvalidInput);
      }
      var k := Key(tenantId, actionId);
      ScanByAction(actionIndex, actionsById, tenantId, actionId);
      if k !in actionIndex {
        return Err(NotFound);
      }
      var action := actionsById[actionIndex[k]].action;
      if action.request.idempotencyKey != idempotencyKey {
        forall id | id in actionsById
          ensures !Matches(actionsById[id], tenantId, actionId, idempotencyKey)
        {
          SameActionSameId(actionIndex, actionsById, action.id, id);
        }
        return Err(NotFound);
      }
      return Ok(action);
    }

    /** Replace one stored cell by a later version of it and hand its commands to the outbox. */
    method Save(c: Cell, commands: seq<Emission>)
      requires Valid() && c.action.id in actionsById && Consistent(c)
      requires c.action.request == actionsById[c.action.id].action.request
      modifies this`actionsById, this`emitted
      ensures Valid() && actionsById == old(actionsById)[c.action.id := c]
      ensures emitted == old(emitted) + commands
    {
      UpdateKeepsCoherent(Books(actionsById, actionIndex, idempotencyIndex, sequence), c);
      actionsById := actionsById[c.action.id := c];
      emitted := emitted + commands;
    }

    method ClaimDispatch(tenantId: string, actionId: string, idempotencyKey: string,
                         owner: string, duration: int, now: int)
      returns (r: Result<(Disposition, Action)>)
      requires Valid()
      modifies this`actionsById, this`emitted
      ensures Valid() && emitted == old(emitted)
      ensures r == Err(InvalidInput) <==> !ValidIdentity(tenantId, actionId, idempotencyKey)
      ensures ClaimedOn(old(actionsById), actionsById, r, tenantId, actionId, idempotencyKey, owner, duration, now)
    {
      if ValidIdentity(tenantId, actionId, idempotencyKey) && (owner == "" || duration <= 0) {
        return Err(StateError);
      }
      var found := Find(tenantId, actionId, idempotencyKey);
      if found.Err? {
        return Err(found.error);
      }
      var action := found.value;
      if IsSettled(action.state) {
        return Ok((SettledAlready, action));
      }
      if action.state == State.RetryScheduled && After(action.nextRetryAt, now) {
        return Ok((Deferred, action));
      }
      if action.state == Dispatching && After(action.dispatchLeaseExpiresAt, now) {
        return Ok((InFlight, action));
      }
      ghost var c := actionsById[action.id];
      NextKeepsConsistent(c, Step(ClaimOp(owner, duration), now));
      var claimed := action.(
        state := Dispatching,
        dispatchAttempts := action.dispatchAttempts + 1,
        dispatchLeaseOwner := Some(owner),
        dispatchLeaseExpiresAt := Some(now + duration),
        lastDispatchAt := Some(now),
        nextRetryAt := None,
        lastErrorCode := None,
        updatedAt := now);
      var ledger := Append(actionsById[action.id].ledger, DispatchStarted(claimed.dispatchAttempts));
      Save(Cell(claimed, ledger), []);
      return Ok((Claimed, claimed));
    }

    /** What the three reports begin with: a settled action is returned as it is, a stranger is refused. */
    method FindHeld(tenantId: string, actionId: string, idempotencyKey: string, owner: string, ghost report: Report,
                    ghost now: int)
      returns (held: bool, r: Result<Action>)
      requires Valid()
      requires ValidIdentity(tenantId, actionId, idempotencyKey) ==> !(report.RetryAfter? && report.delay <= 0)
      ensures r == Err(InvalidInput) <==> !ValidIdentity(tenantId, actionId, idempotencyKey)
      ensures !held ==> Reported(actionsById, actionsById, r, tenantId, actionId, idempotencyKey, owner, report, now)
      ensures held ==> && r.Ok? && Named(actionsById, r.value.id, tenantId, actionId, idempotencyKey)
                       && r.value == actionsById[r.value.id].action && Consistent(actionsById[r.value.id])
                       && Holds(r.value, owner)
    {
      r := Find(tenantId, actionId, idempotencyKey);
      if r.Err? {
        return false, r;
      }
      var action := r.value;
      if IsSettled(action.state) {
        assert actionsById == actionsById[action.id := actionsById[action.id]];
        return false, r;
      }
      if action.state != Dispatching || action.dispatchLeaseOwner != Some(owner) {
        assert Named(actionsById, action.id, tenantId, actionId, idempotencyKey);
        return false, Err(StateError);
      }
      return true, r;
    }

    /** A report that takes effect is saved, and told. */
    method SaveReport(settled: Cell, report: Report, ghost owner: string, ghost now: int)
      requires Valid() && settled.action.id in actionsById && Consistent(actionsById[settled.action.id])
      requires Holds(actionsById[settled.action.id].action, owner) && !(report.RetryAfter? && report.delay <= 0)
      requires settled == Settle(actionsById[settled.action.id], report, now)
      modifies this`actionsById, this`emitted
      ensures Valid() && actionsById == old(actionsById)[settled.action.id := settled]
      ensures emitted == old(emitted) + ReportEmissions(settled.action, report)
      ensures settled != old(actionsById)[settled.action.id]
      ensures Announced(old(actionsById), actionsById, settled.action.id, old(emitted), emitted)
    {
      SettleKeepsConsistent(actionsById[settled.action.id], owner, report, now);
      ReportTells(actionsById[settled.action.id], owner, report, now);
      Save(settled, ReportEmissions(settled.action, report));
    }

    method RecordDispatchAccepted(tenantId: string, actionId: string, idempotencyKey: string, owner: string,
           now: int)
      returns (r: Result<Action>)
      requires Valid()
      modifies this`actionsById, this`emitted
      ensures Valid()
      ensures r == Err(InvalidInput) <==> !ValidIdentity(tenantId, actionId, idempotencyKey)
      ensures Reported(old(actionsById), actionsById, r, tenantId, actionId, idempotencyKey, owner, Accepted, now)
      ensures emitted == old(emitted) + (if actionsById == old(actionsById) then []
                                         else ReportEmissions(r.value, Accepted))
      ensures r.Ok? ==> Announced(old(actionsById), actionsById, r.value.id, old(emitted), emitted)
    {
      var held;
      held, r := FindHeld(tenantId, actionId, idempotencyKey, owner, Accepted, now);
      if !held {
        return;
      }
      var action := r.value;
      var saved := action.(state := State.Dispatched, dispatchLeaseOwner := None, dispatchLeaseExpiresAt := None,
                           nextRetryAt := None, lastErrorCode := None, updatedAt := now);
      var ledger := Append(actionsById[action.id].ledger, DispatchAccepted(saved.dispatchAttempts));
      SaveReport(Cell(saved, ledger), Accepted, owner, now);
      return Ok(saved);
    }

    method ScheduleDispatchRetry(tenantId: string, actionId: string, idempotencyKey: string, owner: string,
           delay: int, code: string, now: int)
      returns (r: Result<Action>)
      requires Valid()
      modifies this`actionsById, this`emitted
      ensures Valid()
      ensures r == Err(InvalidInput) <==> !ValidIdentity(tenantId, actionId, idempotencyKey)
      ensures Reported(old(actionsById), actionsById, r, tenantId, actionId, idempotencyKey, owner,
                       RetryAfter(delay, code), now)
      ensures emitted == old(emitted) + (if actionsById == old(actionsById) then []
                                         else ReportEmissions(r.value, RetryAfter(delay, code)))
      ensures r.Ok? ==> Announced(old(actionsById), actionsById, r.value.id, old(emitted), emitted)
    {
      if ValidIdentity(tenantId, actionId, idempotencyKey) && delay <= 0 {
        return Err(StateError);
      }
      var held;
      held, r := FindHeld(tenantId, actionId, idempotencyKey, owner, RetryAfter(delay, code), now);
      if !held {
        return;
      }
      var action := r.value;
      var saved := action.(state := State.RetryScheduled, dispatchLeaseOwner := None, dispatchLeaseExpiresAt := None,
                           nextRetryAt := Some(now + delay), lastErrorCode := Some(code), updatedAt := now);
      var ledger := Append(actionsById[action.id].ledger, RetryEntry(saved.dispatchAttempts));
      SaveReport(Cell(saved, ledger), RetryAfter(delay, code), owner, now);
      return Ok(saved);
    }

    method FailDispatch(tenantId: string, actionId: string, idempotencyKey: string, owner: string,
           code: string, now: int)
      returns (r: Result<Action>)
      requires Valid()
      modifies this`actionsById, this`emitted
      ensures Valid()
      ensures r == Err(InvalidInput) <==> !ValidIdentity(tenantId, actionId, idempotencyKey)
      ensures Reported(old(actionsById), actionsById, r, tenantId, actionId, idempotencyKey, owner, FailedFor(code),
                       now)
      ensures emitted == old(emitted) + (if actionsById == old(actionsById) then []
                                         else ReportEmissions(r.value, FailedFor(code)))
      ensures r.Ok? ==> Announced(old(actionsById), actionsById, r.value.id, old(emitted), emitted)
    {
      var held;
      held, r := FindHeld(tenantId, actionId, idempotencyKey, owner, FailedFor(code), now);
      if !held {
        return;
      }
      var action := r.value;
      var saved := action.(state := Failed, dispatchLeaseOwner := None, dispatchLeaseExpiresAt := None,
                           nextRetryAt := None, lastErrorCode := Some(code), updatedAt := now);
      var ledger := Append(actionsById[action.id].ledger, DispatchFailed(saved.dispatchAttempts));
      SaveReport(Cell(saved, ledger), FailedFor(code), owner, now);
      return Ok(saved);
    }

    /** Returns the action and whether the callback was already known. */
    method RecordOutcome(tenantId: string, actionId: string, idempotencyKey: string,
                         callbackId: string, completed: bool, code: string, now: int)
      returns (r: Result<(Action, bool)>)
      requires Valid()
      modifies this`actionsById, this`emitted
      ensures Valid()
      ensures r == Err(InvalidInput) <==> !ValidIdentity(tenantId, actionId, idempotencyKey) || !ValidText(callbackId)
      ensures ClosedBy(old(actionsById), actionsById, r, tenantId, actionId, idempotencyKey, callbackId, completed,
                       code, now)
      ensures emitted == old(emitted) + (if r.Err? || r.value.1 then []
                                         else OutcomeEmissions(r.value.0, callbackId, completed))
      ensures r.Ok? ==> Announced(old(actionsById), actionsById, r.value.0.id, old(emitted), emitted)
    {
      if !ValidText(callbackId) {
        return Err(InvalidInput);
      }
      var found := Find(tenantId, actionId, idempotencyKey);
      if found.Err? {
        return Err(found.error);
      }
      var action := found.value;
      var ledger := actionsById[action.id].ledger;
      if HasKey(ledger, Callback(callbackId, completed)) {
        return Ok((action, true));
      }
      if action.state == Completed || action.state == Failed {
        assert Named(actionsById, action.id, tenantId, actionId, idempotencyKey);
        return Err(StateError);
      }
      ghost var c := actionsById[action.id];
      NextKeepsConsistent(c, Step(OutcomeOp(callbackId, completed, code), now));
      var transitioned := action.(
        state := if completed then Completed else Failed,
        dispatchLeaseOwner := None,
        dispatchLeaseExpiresAt := None,
        nextRetryAt := None,
        lastErrorCode := if completed then None else Some(code),
        updatedAt := now);
      Save(Cell(transitioned, Append(ledger, Callback(callbackId, completed))),
           OutcomeEmissions(transitioned, callbackId, completed));
      OutcomeTells(c, callbackId, completed, code, now);
      return Ok((transitioned, false));
    }

    method Insert(c: Cell, command: Emission)
      requires Valid() && c.action.id == sequence + 1 && GoodCell(c, c.action.id)
      requires Key(c.action.request.tenantId, c.action.request.actionId) !in actionIndex
      requires Key(c.action.request.tenantId, c.action.request.idempotencyKey) !in idempotencyIndex
      modifies this
      ensures Valid() && actionsById == old(actionsById)[c.action.id := c] && emitted == old(emitted) + [command]
    {
      var ka := Key(c.action.request.tenantId, c.action.request.actionId);
      var ki := Key(c.action.request.tenantId, c.action.request.idempotencyKey);
      AddKeepsCoherent(Books(actionsById, actionIndex, idempotencyIndex, sequence), c);
      sequence := c.action.id;
      actionsById := actionsById[c.action.id := c];
      actionIndex := actionIndex[ka := c.action.id];
      idempotencyIndex := idempotencyIndex[ki := c.action.id];
      emitted := emitted + [command];
    }

    /** The stored action that already uses one of the request's two names. */
    method FindShared(request: StableJson.Request) returns (r: Option<nat>)
      requires Valid() && Outbox.IsUuid(request.tenantId)
      ensures r.Some? ==> && r.value in actionsById && actionsById[r.value].action.id == r.value
                          && SharesName(actionsById[r.value], request)
      ensures r.None? ==> && Key(request.tenantId, request.actionId) !in actionIndex
                          && Key(request.tenantId, request.idempotencyKey) !in idempotencyIndex
                          && forall id {:trigger id in actionsById} | id in actionsById ::
                               !SharesName(actionsById[id], request)
    {
      var ka, ki := Key(request.tenantId, request.actionId), Key(request.tenantId, request.idempotencyKey);
      ScanByAction(actionIndex, actionsById, request.tenantId, request.actionId);
      ScanByIdempotency(idempotencyIndex, actionsById, request.tenantId, request.idempotencyKey);
      if ka in actionIndex {
        return Some(actionIndex[ka]);
      }
      if ki in idempotencyIndex {
        return Some(idempotencyIndex[ki]);
      }
      return None;
    }

    /** A request one of whose names is taken: a replay, or a conflict. */
    method Replay(id: nat, request: StableJson.Request, digest: StableJson.JsString)
      returns (r: Result<(Action, bool)>)
      requires Valid() && id in actionsById && actionsById[id].action.id == id
      requires SharesName(actionsById[id], request) && digest == StableJson.DigestText(request)
      modifies this`emitted
      ensures Valid() && (r.Ok? ==> r.value.1) && (r.Err? ==> r.error == Conflict)
      ensures forall now :: Admitted(actionsById, actionsById, r, request, now)
      ensures emitted == old(emitted) + (if r.Err? then []
                                         else [DispatchRequested(request.tenantId, request.idempotencyKey)])
    {
      var existing := actionsById[id].action;
      if existing.request.actionId != request.actionId
         || existing.request.idempotencyKey != request.idempotencyKey
         || existing.requestDigest != digest
      {
        return Err(Conflict);
      }
      emitted := emitted + [DispatchRequested(request.tenantId, request.idempotencyKey)];
      return Ok((existing, true));
    }

    /** Returns the action and whether the request was a replay. */
    method EnqueueRequested(request: StableJson.Request, now: int) returns (r: Result<(Action, bool)>)
      requires Valid()
      modifies this
      ensures Valid()
      ensures r == Err(InvalidInput) <==> !ValidRequest(request)
      ensures r == Err(InvalidInput) ==> actionsById == old(actionsById)
      ensures ValidRequest(request) ==> Admitted(old(actionsById), actionsById, r, request, now)
      ensures emitted == old(emitted) + (if r.Err? then []
                                         else [DispatchRequested(request.tenantId, request.idempotencyKey)])
    {
      if !ValidRequest(request) {
        return Err(InvalidInput);
      }
      var digest := StableJson.DigestText(request);
      var shared := FindShared(request);
      if shared.Some? {
        r := Replay(shared.value, request, digest);
      } else {
        r := Admit(request, digest, now);
      }
    }

    /** A request none of whose names is taken. */
    method Admit(request: StableJson.Request, digest: StableJson.JsString, now: int) returns (r: Result<(Action, bool)>)
      requires Valid() && ValidRequest(request) && digest == StableJson.DigestText(request)
      requires Key(request.tenantId, request.actionId) !in actionIndex
      requires Key(request.tenantId, request.idempotencyKey) !in idempotencyIndex
      requires forall id {:trigger id in actionsById} | id in actionsById :: !SharesName(actionsById[id], request)
      modifies this
      ensures Valid() && r.Ok? && Admitted(old(actionsById), actionsById, r, request, now)
      ensures emitted == old(emitted) + [DispatchRequested(request.tenantId, request.idempotencyKey)]
    {
      var action := Action(sequence + 1, request, digest, Requested, 0, None, None, None, None, None, now);
      Insert(Cell(action, [RequestedEntry(request.idempotencyKey)]),
             DispatchRequested(request.tenantId, request.idempotencyKey));
      r := Ok((action, false));
    }
  }
}
