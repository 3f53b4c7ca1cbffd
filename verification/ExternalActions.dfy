/**
 * The life of one external action: dispatch lease, retry, terminal callback,
 * append-only ledger (packages/db/src/external-actions-repository.ts).
 *
 * Each repository method is one atomic step on a cell, an action with its
 * ledger. Runs are arbitrary sequences of steps by arbitrary callers at
 * arbitrary times.
 */
module ExternalActions {
  import opened Text
  import StableJson

  datatype State = Requested | Dispatching | RetryScheduled | Dispatched | Completed | Failed

  datatype Action = Action(
    id: nat,
    request: StableJson.Request,
    requestDigest: StableJson.JsString,
    state: State,
    dispatchAttempts: nat,
    dispatchLeaseOwner: Option<string>,
    dispatchLeaseExpiresAt: Option<int>,
    lastDispatchAt: Option<int>,
    nextRetryAt: Option<int>,
    lastErrorCode: Option<string>,
    updatedAt: int)

  /** A ledger entry; its kind and argument make up the source's event key. */
  datatype Entry =
    | RequestedEntry(idempotencyKey: string)
    | DispatchStarted(attempt: nat)
    | DispatchAccepted(attempt: nat)
    | RetryEntry(attempt: nat)
    | DispatchFailed(attempt: nat)
    | Callback(callbackId: string, completed: bool)

  /** `callback:<id>` does not say how the callback ended. */
  predicate SameKey(e: Entry, f: Entry) {
    if e.Callback? && f.Callback? then e.callbackId == f.callbackId else e == f
  }

  predicate HasKey(ledger: seq<Entry>, e: Entry) {
    exists i | 0 <= i < |ledger| :: SameKey(ledger[i], e)
  }

  /** `appendEvent`: a known key is silently skipped. */
  function Append(ledger: seq<Entry>, e: Entry): seq<Entry> {
    if HasKey(ledger, e) then ledger else ledger + [e]
  }

  datatype Cell = Cell(action: Action, ledger: seq<Entry>)

  datatype Disposition = Claimed | Deferred | InFlight | SettledAlready

  datatype Error = NotFound | StateError | Conflict | InvalidInput

  datatype Result<+T> = Ok(value: T) | Err(error: Error)

  predicate IsSettled(s: State) {
    s in {Dispatched, Completed, Failed}
  }

  predicate IsTerminal(s: State) {
    s in {Completed, Failed}
  }

  predicate After(t: Option<int>, now: int) {
    t.Some? && t.value > now
  }

  // ── Repository steps on one action ───────────────────────────────────────

  function NewCell(id: nat, r: StableJson.Request, now: int): Cell {
    Cell(Action(id, r, StableJson.DigestText(r), Requested, 0, None, None, None, None, None, now),
         [RequestedEntry(r.idempotencyKey)])
  }

  function ClaimDisposition(a: Action, now: int): Disposition {
    if IsSettled(a.state) then SettledAlready
    else if a.state == RetryScheduled && After(a.nextRetryAt, now) then Deferred
    else if a.state == Dispatching && After(a.dispatchLeaseExpiresAt, now) then InFlight
    else Claimed
  }

  /** The claim's effect once granted. */
  function Granted(c: Cell, owner: string, duration: int, now: int): Cell {
    var a := c.action.(state := Dispatching, dispatchAttempts := c.action.dispatchAttempts + 1,
                       dispatchLeaseOwner := Some(owner), dispatchLeaseExpiresAt := Some(now + duration),
                       lastDispatchAt := Some(now), nextRetryAt := None, lastErrorCode := None, updatedAt := now);
    Cell(a, Append(c.ledger, DispatchStarted(a.dispatchAttempts)))
  }

  function Claim(c: Cell, owner: string, duration: int, now: int): Cell {
    if ClaimDisposition(c.action, now).Claimed? then Granted(c, owner, duration, now) else c
  }

  /** What the publisher reports after calling the provider. */
  datatype Report = Accepted | RetryAfter(delay: int, code: string) | FailedFor(code: string)

  predicate Holds(a: Action, owner: string) {
    a.state == Dispatching && a.dispatchLeaseOwner == Some(owner)
  }

  function Settle(c: Cell, report: Report, now: int): Cell {
    var a := c.action.(dispatchLeaseOwner := None, dispatchLeaseExpiresAt := None, updatedAt := now);
    match report
    case Accepted =>
      Cell(a.(state := Dispatched, nextRetryAt := None, lastErrorCode := None),
           Append(c.ledger, DispatchAccepted(a.dispatchAttempts)))
    case RetryAfter(delay, code) =>
      Cell(a.(state := RetryScheduled, nextRetryAt := Some(now + delay), lastErrorCode := Some(code)),
           Append(c.ledger, RetryEntry(a.dispatchAttempts)))
    case FailedFor(code) =>
      Cell(a.(state := Failed, nextRetryAt := None, lastErrorCode := Some(code)),
           Append(c.ledger, DispatchFailed(a.dispatchAttempts)))
  }

  /** `recordDispatchAccepted`, `scheduleDispatchRetry`, `failDispatch`. */
  function ReportDispatch(c: Cell, owner: string, report: Report, now: int): Result<Cell> {
    if report.RetryAfter? && report.delay <= 0 then Err(StateError)
    else if IsSettled(c.action.state) then Ok(c)
    else if !Holds(c.action, owner) then Err(StateError)
    else Ok(Settle(c, report, now))
  }

  function CloseWith(c: Cell, callbackId: string, completed: bool, code: string, now: int): Cell {
    Cell(c.action.(state := if completed then Completed else Failed,
                   dispatchLeaseOwner := None, dispatchLeaseExpiresAt := None, nextRetryAt := None,
                   lastErrorCode := if completed then None else Some(code), updatedAt := now),
         Append(c.ledger, Callback(callbackId, completed)))
  }

  /** `recordOutcome` */
  function RecordOutcome(c: Cell, callbackId: string, completed: bool, code: string, now: int): Result<Cell> {
    if HasKey(c.ledger, Callback(callbackId, completed)) then Ok(c)
    else if IsTerminal(c.action.state) then Err(StateError)
    else Ok(CloseWith(c, callbackId, completed, code, now))
  }

  // ── Runs ─────────────────────────────────────────────────────────────────

  datatype Op =
    | ClaimOp(owner: string, duration: int)
    | ReportOp(owner: string, report: Report)
    | OutcomeOp(callbackId: string, completed: bool, code: string)

  datatype Step = Step(op: Op, now: int)

  /** One call; a call that throws changes nothing. */
  function Next(c: Cell, s: Step): Cell {
    match s.op
    case ClaimOp(owner, duration) => if owner == "" || duration <= 0 then c else Claim(c, owner, duration, s.now)
    case ReportOp(owner, report) =>
      var r := ReportDispatch(c, owner, report, s.now); if r.Ok? then r.value else c
    case OutcomeOp(id, completed, code) =>
      var r := RecordOutcome(c, id, completed, code, s.now); if r.Ok? then r.value else c
  }

  function Run(c: Cell, steps: seq<Step>): Cell {
    if steps == [] then c else Next(Run(c, steps[..|steps| - 1]), steps[|steps| - 1])
  }

  /** The cell before step i of the run. */
  function Before(c: Cell, steps: seq<Step>, i: nat): Cell
    requires i <= |steps|
  {
    Run(c, steps[..i])
  }

  predicate TookEffect(c: Cell, steps: seq<Step>, i: nat)
    requires i < |steps|
  {
    Next(Before(c, steps, i), steps[i]) != Before(c, steps, i)
  }

  lemma BeforeNext(c: Cell, steps: seq<Step>, i: nat)
    requires i < |steps|
    ensures Before(c, steps, i + 1) == Next(Before(c, steps, i), steps[i])
  {
    assert steps[..i + 1][..i] == steps[..i];
  }

  // ── The ledger as a complete history ─────────────────────────────────────

  /** What one entry does to the state and attempt count it is appended to, if it may be appended there. */
  function Advance(s: State, n: nat, e: Entry): Option<(State, nat)> {
    match e
    case RequestedEntry(_) => None
    case DispatchStarted(m) =>
      if m == n + 1 && s in {Requested, Dispatching, RetryScheduled} then Some((Dispatching, m)) else None
    case DispatchAccepted(m) => if m == n && s == Dispatching then Some((Dispatched, n)) else None
    case RetryEntry(m) => if m == n && s == Dispatching then Some((RetryScheduled, n)) else None
    case DispatchFailed(m) => if m == n && s == Dispatching then Some((Failed, n)) else None
    case Callback(_, completed) =>
      if IsTerminal(s) then None else Some((if completed then Completed else Failed, n))
  }

  /** Folding the ledger; None when it is not a history of one action. */
  function Replay(ledger: seq<Entry>): Option<(State, nat)> {
    if ledger == [] then None
    else if |ledger| == 1 then (if ledger[0].RequestedEntry? then Some((Requested, 0)) else None)
    else
      match Replay(ledger[..|ledger| - 1])
      case None => None
      case Some((s, n)) => Advance(s, n, ledger[|ledger| - 1])
  }

  function Occurrences(ledger: seq<Entry>, e: Entry): nat {
    multiset(ledger)[e]
  }

  predicate IsTerminalEntry(e: Entry) {
    e.DispatchFailed? || e.Callback?
  }

  function TerminalEntries(ledger: seq<Entry>): nat {
    if ledger == [] then 0
    else TerminalEntries(ledger[..|ledger| - 1]) + (if IsTerminalEntry(ledger[|ledger| - 1]) then 1 else 0)
  }

  function Reports(ledger: seq<Entry>, k: nat): nat {
    Occurrences(ledger, DispatchAccepted(k)) + Occurrences(ledger, RetryEntry(k))
    + Occurrences(ledger, DispatchFailed(k))
  }

  /**
   * In every ledger that folds to (state, n): started entries 1..n appear once
   * each and no other; every attempt has at most one report and the attempt in
   * flight has none; there is one terminal entry in a terminal state and none
   * otherwise.
   */
  lemma HistoryShape(ledger: seq<Entry>, k: nat)
    requires Replay(ledger).Some?
    ensures var (s, n) := Replay(ledger).value;
            && Occurrences(ledger, DispatchStarted(k)) == (if 1 <= k <= n then 1 else 0)
            && Reports(ledger, k) <= 1
            && (k > n || (k == n && s == Dispatching) ==> Reports(ledger, k) == 0)
            && TerminalEntries(ledger) == (if IsTerminal(s) then 1 else 0)
            && (IsTerminal(s) ==> IsTerminalEntry(ledger[|ledger| - 1]))
  {
    StartsAreNumbered(ledger, k);
    ReportsAreFew(ledger, k);
    OneTerminalEntry(ledger);
  }

  lemma OccurrencesSnoc(ledger: seq<Entry>, e: Entry)
    requires ledger != []
    ensures Occurrences(ledger, e)
         == Occurrences(ledger[..|ledger| - 1], e) + (if ledger[|ledger| - 1] == e then 1 else 0)
  {
    assert ledger == ledger[..|ledger| - 1] + [ledger[|ledger| - 1]];
  }

  lemma {:induction false} StartsAreNumbered(ledger: seq<Entry>, k: nat)
    requires Replay(ledger).Some?
    ensures Occurrences(ledger, DispatchStarted(k)) == if 1 <= k <= Replay(ledger).value.1 then 1 else 0
  {
    OccurrencesSnoc(ledger, DispatchStarted(k));
    if |ledger| > 1 {
      StartsAreNumbered(ledger[..|ledger| - 1], k);
    }
  }

  lemma {:induction false} ReportsAreFew(ledger: seq<Entry>, k: nat)
    requires Replay(ledger).Some?
    ensures var (s, n) := Replay(ledger).value;
            Reports(ledger, k) <= 1 && (k > n || (k == n && s == Dispatching) ==> Reports(ledger, k) == 0)
  {
    OccurrencesSnoc(ledger, DispatchAccepted(k));
    OccurrencesSnoc(ledger, RetryEntry(k));
    OccurrencesSnoc(ledger, DispatchFailed(k));
    if |ledger| > 1 {
      ReportsAreFew(ledger[..|ledger| - 1], k);
    }
  }

  lemma {:induction false} OneTerminalEntry(ledger: seq<Entry>)
    requires Replay(ledger).Some?
    ensures var (s, _) := Replay(ledger).value;
            && TerminalEntries(ledger) == (if IsTerminal(s) then 1 else 0)
            && (IsTerminal(s) ==> IsTerminalEntry(ledger[|ledger| - 1]))
  {
    if |ledger| > 1 {
      OneTerminalEntry(ledger[..|ledger| - 1]);
    } else {
      assert TerminalEntries(ledger[..0]) == 0;
    }
  }

  lemma {:induction false} OpenHistoryHasNoCallback(ledger: seq<Entry>, i: nat)
    requires Replay(ledger).Some? && !IsTerminal(Replay(ledger).value.0) && i < |ledger|
    ensures !ledger[i].Callback?
  {
    if |ledger| > 1 && i < |ledger| - 1 {
      var front := ledger[..|ledger| - 1];
      assert front[i] == ledger[i];
      OpenHistoryHasNoCallback(front, i);
    }
  }

  // ── The invariant of reachable actions ───────────────────────────────────

  /** Lease fields are set exactly while dispatching, the retry time exactly while a retry is scheduled. */
  predicate FieldsMatchState(a: Action) {
    && (a.dispatchLeaseOwner.Some? <==> a.state == Dispatching)
    && (a.dispatchLeaseExpiresAt.Some? <==> a.state == Dispatching)
    && (a.nextRetryAt.Some? <==> a.state == RetryScheduled)
  }

  /** The ledger rebuilds the row. */
  predicate Consistent(c: Cell) {
    && FieldsMatchState(c.action)
    && Replay(c.ledger) == Some((c.action.state, c.action.dispatchAttempts))
  }

  lemma AppendExtendsHistory(c: Cell, e: Entry)
    requires Consistent(c) && Advance(c.action.state, c.action.dispatchAttempts, e).Some?
    ensures Append(c.ledger, e) == c.ledger + [e]
    ensures Replay(c.ledger + [e]) == Advance(c.action.state, c.action.dispatchAttempts, e)
  {
    if e.Callback? {
      forall i | 0 <= i < |c.ledger|
        ensures !SameKey(c.ledger[i], e)
      {
        OpenHistoryHasNoCallback(c.ledger, i);
      }
    } else {
      HistoryShape(c.ledger, e.attempt);
      assert e !in multiset(c.ledger);
      assert forall i | 0 <= i < |c.ledger| :: c.ledger[i] in multiset(c.ledger);
    }
    assert (c.ledger + [e])[..|c.ledger|] == c.ledger;
  }

  lemma NextKeepsConsistent(c: Cell, s: Step)
    requires Consistent(c)
    ensures Consistent(Next(c, s))
  {
    var n := c.action.dispatchAttempts;
    if Next(c, s) != c {
      match s.op
      case ClaimOp(_, _) => AppendExtendsHistory(c, DispatchStarted(n + 1));
      case ReportOp(_, Accepted) => AppendExtendsHistory(c, DispatchAccepted(n));
      case ReportOp(_, RetryAfter(_, _)) => AppendExtendsHistory(c, RetryEntry(n));
      case ReportOp(_, FailedFor(_)) => AppendExtendsHistory(c, DispatchFailed(n));
      case OutcomeOp(id, completed, _) => AppendExtendsHistory(c, Callback(id, completed));
    }
  }

  // ── The calls by what they leave ─────────────────────────────────────────

  /** What no call touches. */
  predicate SameOrigin(a: Action, b: Action) {
    a.id == b.id && a.request == b.request && a.requestDigest == b.requestDigest
  }

  /** The attempt has been started: its number is the next one, and the lease is the claimant's from now on. */
  predicate Started(before: Cell, after: Cell, owner: string, duration: int, now: int) {
    match after.action
    case Action(_, _, _, state, attempts, leaseOwner, expiresAt, lastDispatchAt, nextRetryAt, lastErrorCode, _) =>
      && SameOrigin(before.action, after.action)
      && state.Dispatching? && attempts == before.action.dispatchAttempts + 1
      && leaseOwner == Some(owner) && expiresAt == Some(now + duration)
      && lastDispatchAt == Some(now) && nextRetryAt.None? && lastErrorCode.None?
      && after.ledger == before.ledger + [DispatchStarted(attempts)]
  }

  /** Something holds the action back: it is settled, waits for its retry, or another lease stands. */
  predicate HeldBack(a: Action, now: int) {
    match a.state
    case Requested => false
    case Dispatching => a.dispatchLeaseExpiresAt.Some? && now < a.dispatchLeaseExpiresAt.value
    case RetryScheduled => a.nextRetryAt.Some? && now < a.nextRetryAt.value
    case Dispatched => true
    case Completed => true
    case Failed => true
  }

  /** A claim starts the next attempt exactly when nothing holds the action back, and otherwise changes nothing. */
  lemma ClaimStartsIff(c: Cell, owner: string, duration: int, now: int)
    requires Consistent(c) && owner != "" && duration > 0
    ensures var d := Next(c, Step(ClaimOp(owner, duration), now));
            if HeldBack(c.action, now) then d == c else Started(c, d, owner, duration, now)
    ensures ClaimDisposition(c.action, now).Claimed? <==> !HeldBack(c.action, now)
    ensures ClaimDisposition(c.action, now).SettledAlready? <==>
              c.action.state.Dispatched? || c.action.state.Completed? || c.action.state.Failed?
  {
    if !HeldBack(c.action, now) {
      AppendExtendsHistory(c, DispatchStarted(c.action.dispatchAttempts + 1));
    }
  }

  /** The lease is over, and the ledger has this one entry more. */
  predicate EndsAttempt(before: Cell, after: Cell, entry: Entry) {
    match after.action
    case Action(_, _, _, _, attempts, leaseOwner, expiresAt, lastDispatchAt, _, _, _) =>
      && SameOrigin(before.action, after.action)
      && attempts == before.action.dispatchAttempts && lastDispatchAt == before.action.lastDispatchAt
      && leaseOwner.None? && expiresAt.None? && after.ledger == before.ledger + [entry]
  }

  /** The report can be made: this owner holds the lease, and a retry lies ahead. */
  predicate Reportable(c: Cell, owner: string, report: Report) {
    && c.action.state.Dispatching? && c.action.dispatchLeaseOwner == Some(owner)
    && match report case RetryAfter(delay, _) => delay > 0 case _ => true
  }

  /** A report takes effect exactly for the holder of the lease, and leaves in row and ledger what it says. */
  lemma ReportLeaves(c: Cell, owner: string, report: Report, now: int)
    requires Consistent(c)
    ensures var d := Next(c, Step(ReportOp(owner, report), now)); var n := c.action.dispatchAttempts;
            if !Reportable(c, owner, report) then d == c
            else match report
                 case Accepted =>
                   && EndsAttempt(c, d, DispatchAccepted(n)) && d.action.state.Dispatched?
                   && d.action.nextRetryAt.None? && d.action.lastErrorCode.None?
                 case RetryAfter(delay, code) =>
                   && EndsAttempt(c, d, RetryEntry(n)) && d.action.state.RetryScheduled?
                   && d.action.nextRetryAt == Some(now + delay) && d.action.lastErrorCode == Some(code)
                 case FailedFor(code) =>
                   && EndsAttempt(c, d, DispatchFailed(n)) && d.action.state.Failed?
                   && d.action.nextRetryAt.None? && d.action.lastErrorCode == Some(code)
  {
    if Reportable(c, owner, report) {
      var n := c.action.dispatchAttempts;
      match report
      case Accepted => AppendExtendsHistory(c, DispatchAccepted(n));
      case RetryAfter(_, _) => AppendExtendsHistory(c, RetryEntry(n));
      case FailedFor(_) => AppendExtendsHistory(c, DispatchFailed(n));
    }
  }

  /** A callback closes the action, as completed or failed as it says, exactly when nothing has closed it before. */
  lemma CallbackCloses(c: Cell, callbackId: string, completed: bool, code: string, now: int)
    requires Consistent(c)
    ensures var d := Next(c, Step(OutcomeOp(callbackId, completed, code), now));
            if c.action.state.Completed? || c.action.state.Failed? then d == c
            else && EndsAttempt(c, d, Callback(callbackId, completed)) && d.action.nextRetryAt.None?
                 && (d.action.state.Completed? <==> completed) && (d.action.state.Failed? <==> !completed)
                 && d.action.lastErrorCode == (if completed then None else Some(code))
  {
    if !IsTerminal(c.action.state) {
      AppendExtendsHistory(c, Callback(callbackId, completed));
      forall i | 0 <= i < |c.ledger|
        ensures !c.ledger[i].Callback?
      {
        OpenHistoryHasNoCallback(c.ledger, i);
      }
    }
  }

  /** Every action any run can reach is rebuilt by its ledger and has exactly the fields its state calls for. */
  lemma {:induction false} ReachableIsConsistent(id: nat, r: StableJson.Request, created: int, steps: seq<Step>)
    ensures Consistent(Run(NewCell(id, r, created), steps))
  {
    if steps != [] {
      ReachableIsConsistent(id, r, created, steps[..|steps| - 1]);
      NextKeepsConsistent(Run(NewCell(id, r, created), steps[..|steps| - 1]), steps[|steps| - 1]);
    }
  }

  lemma RunKeepsConsistent(c: Cell, steps: seq<Step>)
    requires Consistent(c)
    ensures Consistent(Run(c, steps))
    decreases |steps|
  {
    if steps != [] {
      RunKeepsConsistent(c, steps[..|steps| - 1]);
      NextKeepsConsistent(Run(c, steps[..|steps| - 1]), steps[|steps| - 1]);
    }
  }

  /** A settled action stays settled: dispatched may still close, a closed action never changes at all. */
  lemma {:induction false} SettledIsStable(c: Cell, steps: seq<Step>)
    requires Consistent(c) && IsSettled(c.action.state)
    ensures IsSettled(Run(c, steps).action.state)
    ensures Run(c, steps).action.dispatchAttempts == c.action.dispatchAttempts
    ensures IsTerminal(c.action.state) ==> Run(c, steps) == c
    decreases |steps|
  {
    if steps != [] {
      SettledIsStable(c, steps[..|steps| - 1]);
    }
  }

  /** A callback id takes effect once: the first accepted callback closes the action for good. */
  lemma CallbackOnce(c: Cell, s: Step, later: seq<Step>, t: Step)
    requires Consistent(c) && s.op.OutcomeOp? && Next(c, s) != c
    requires t.op.OutcomeOp?
    ensures Next(Run(Next(c, s), later), t) == Run(Next(c, s), later) == Next(c, s)
  {
    NextKeepsConsistent(c, s);
    SettledIsStable(Next(c, s), later);
  }

  lemma {:induction false} RunKeepsRequest(c: Cell, steps: seq<Step>)
    ensures Run(c, steps).action.request == c.action.request
    ensures Run(c, steps).action.requestDigest == c.action.requestDigest
    decreases |steps|
  {
    if steps != [] {
      RunKeepsRequest(c, steps[..|steps| - 1]);
    }
  }

  /** Whatever happened to an action, its stored digest recognises exactly the requests that mean the same. */
  lemma ReplayIsRecognised(id: nat, r: StableJson.Request, created: int, steps: seq<Step>, q: StableJson.Request)
    requires StableJson.WellFormed(r.requestPayload) && StableJson.WellFormed(q.requestPayload)
    ensures Run(NewCell(id, r, created), steps).action.requestDigest == StableJson.DigestText(q)
       <==> StableJson.SameRequest(r, q)
  {
    RunKeepsRequest(NewCell(id, r, created), steps);
    StableJson.DigestDetectsDifferentRequests(r, q);
  }

  // ── Lease safety ─────────────────────────────────────────────────────────

  predicate EffectiveClaim(c: Cell, steps: seq<Step>, i: nat)
    requires i < |steps|
  {
    steps[i].op.ClaimOp? && TookEffect(c, steps, i)
  }

  predicate EffectiveRetry(c: Cell, steps: seq<Step>, i: nat)
    requires i < |steps|
  {
    steps[i].op.ReportOp? && steps[i].op.report.RetryAfter? && TookEffect(c, steps, i)
  }

  /** Where an action can stand before step k, after a claim at i and no other since. */
  ghost predicate HeldSince(c: Cell, steps: seq<Step>, i: nat, k: nat, a: Action)
    requires i < k <= |steps| && steps[i].op.ClaimOp?
  {
    || IsSettled(a.state)
    || (a.state == Dispatching && a.dispatchLeaseOwner == Some(steps[i].op.owner)
        && a.dispatchLeaseExpiresAt == Some(steps[i].now + steps[i].op.duration))
    || (a.state == RetryScheduled
        && exists m | i < m < k ::
             && EffectiveRetry(c, steps, m)
             && steps[m].op.owner == steps[i].op.owner
             && a.nextRetryAt == Some(steps[m].now + steps[m].op.report.delay))
  }

  lemma {:induction false} HeldUntilNextClaim(c: Cell, steps: seq<Step>, i: nat, k: nat)
    requires i < k <= |steps| && EffectiveClaim(c, steps, i)
    requires forall m | i < m < k :: !EffectiveClaim(c, steps, m)
    ensures HeldSince(c, steps, i, k, Before(c, steps, k).action)
    decreases k
  {
    BeforeNext(c, steps, k - 1);
    if k > i + 1 {
      HeldUntilNextClaim(c, steps, i, k - 1);
      var m := k - 1;
      var prior, now := Before(c, steps, m), Before(c, steps, k);
      if now != prior {
        assert !EffectiveClaim(c, steps, m);
        if EffectiveRetry(c, steps, m) {
          assert now.action.nextRetryAt == Some(steps[m].now + steps[m].op.report.delay);
        } else {
          assert IsSettled(now.action.state);
        }
      }
    }
  }

  /**
   * Between two successive claims of an action either the first lease had run
   * out or the first claimant scheduled a retry whose time had come. No
   * assumption is made on the clock.
   */
  lemma ClaimsAreSpaced(c: Cell, steps: seq<Step>, i: nat, j: nat)
    requires i < j < |steps| && EffectiveClaim(c, steps, i) && EffectiveClaim(c, steps, j)
    requires forall m | i < m < j :: !EffectiveClaim(c, steps, m)
    ensures || steps[j].now >= steps[i].now + steps[i].op.duration
            || exists m | i < m < j ::
                 && EffectiveRetry(c, steps, m)
                 && steps[m].op.owner == steps[i].op.owner
                 && steps[j].now >= steps[m].now + steps[m].op.report.delay
  {
    HeldUntilNextClaim(c, steps, i, j);
  }

  /** The latest claim before k that nothing has touched since. */
  ghost predicate UntouchedClaim(c: Cell, steps: seq<Step>, m: nat, k: nat, owner: string)
    requires m < k <= |steps|
  {
    && EffectiveClaim(c, steps, m) && steps[m].op.owner == owner
    && forall l | m < l < k :: !TookEffect(c, steps, l)
  }

  lemma {:induction false} HolderHasUntouchedClaim(c: Cell, steps: seq<Step>, k: nat, owner: string)
    requires Consistent(c) && c.action.state != Dispatching && k <= |steps|
    requires Holds(Before(c, steps, k).action, owner)
    ensures exists m | 0 <= m < k :: UntouchedClaim(c, steps, m, k, owner)
    decreases k
  {
    if k > 0 {
      BeforeNext(c, steps, k - 1);
      if TookEffect(c, steps, k - 1) {
        assert UntouchedClaim(c, steps, k - 1, k, owner);
      } else {
        HolderHasUntouchedClaim(c, steps, k - 1, owner);
        var m :| 0 <= m < k - 1 && UntouchedClaim(c, steps, m, k - 1, owner);
        assert UntouchedClaim(c, steps, m, k, owner);
      }
    }
  }

  /**
   * A report takes effect only straight after the reporter's own claim: nothing
   * took effect in between, so a worker that was displaced by another claimant
   * or overtaken by a callback can never change the action.
   */
  lemma OnlyTheHolderReports(c: Cell, steps: seq<Step>, k: nat)
    requires Consistent(c) && c.action.state != Dispatching
    requires k < |steps| && steps[k].op.ReportOp? && TookEffect(c, steps, k)
    ensures exists m | 0 <= m < k :: UntouchedClaim(c, steps, m, k, steps[k].op.owner)
  {
    HolderHasUntouchedClaim(c, steps, k, steps[k].op.owner);
  }

  // ── The conditional UPDATE of the Postgres repository ────────────────────

  predicate NullOrReached(t: Option<int>, now: int) {
    t.None? || t.value <= now
  }

  /** The WHERE clause of the claim. */
  predicate SqlClaimGuard(a: Action, now: int) {
    || (a.state in {Requested, RetryScheduled} && NullOrReached(a.nextRetryAt, now))
    || (a.state == Dispatching && NullOrReached(a.dispatchLeaseExpiresAt, now))
  }

  /** The guard accepts the rows the in-memory code claims, provided the retry time of a requested row is not ahead. */
  lemma SqlGuardAgrees(a: Action, now: int)
    ensures (SqlClaimGuard(a, now) <==> ClaimDisposition(a, now).Claimed?)
       <==> !(a.state == Requested && After(a.nextRetryAt, now))
    ensures FieldsMatchState(a) ==> (SqlClaimGuard(a, now) <==> ClaimDisposition(a, now).Claimed?)
  {
  }

  /**
   * The transaction reads the row, decides, and then updates under the guard;
   * another transaction may commit in between, so the row updated need not be
   * the row read.
   */
  function SqlClaim(read: Action, row: Cell, owner: string, duration: int, now: int): (Disposition, Cell) {
    if !ClaimDisposition(read, now).Claimed? then (ClaimDisposition(read, now), row)
    else if SqlClaimGuard(row.action, now) then (Claimed, Granted(row, owner, duration, now))
    else if IsSettled(row.action.state) then (SettledAlready, row)
    else if row.action.state == RetryScheduled && After(row.action.nextRetryAt, now) then (Deferred, row)
    else (InFlight, row)
  }

  /**
   * However the row changed since it was read, the transaction acts as one
   * atomic in-memory claim on the row it updates, or refuses and changes
   * nothing.
   */
  lemma SqlClaimIsAtomic(read: Action, row: Cell, owner: string, duration: int, now: int)
    requires Consistent(row)
    ensures var (d, after) := SqlClaim(read, row, owner, duration, now);
            if ClaimDisposition(read, now).Claimed?
            then d == ClaimDisposition(row.action, now) && after == Claim(row, owner, duration, now)
            else !d.Claimed? && after == row
  {
    SqlGuardAgrees(row.action, now);
  }
}
