/**
 * Any number of outbox publishers working one external-action store, with
 * crashes, thrown errors, overlapping leases and n8n callbacks at every point
 * (`dispatchN8nAction` and the consume step of `publishPendingForTenant`,
 * apps/worker-outbox-publisher/src/outbox-publisher.ts).
 *
 * A worker's program counter says which await it is at. Worker names, lease
 * owners and clocks are unconstrained.
 */
module DispatchProtocol {
  import opened ExternalActions
  import StableJson
  import Steps

  /** One approved action: its cell, its dispatch outbox row, and the attempts for which n8n was called. */
  datatype Item = Item(cell: Cell, consumed: bool, calls: seq<nat>)

  datatype ProviderResult = Success | Retryable(delay: int) | Permanent | Threw

  datatype Pc =
    | Idle
    | Listed(id: nat)                                          // about to claim
    | Calling(id: nat, attempt: nat)                           // claim granted, about to call n8n
    | Called(id: nat, attempt: nat, result: ProviderResult)    // about to report
    | Consuming(id: nat)                                       // about to mark the row consumed

  datatype Sys = Sys(items: map<nat, Item>, workers: map<nat, Pc>)

  datatype Label =
    | Enqueue(id: nat, request: StableJson.Request, now: int)
    | List(w: nat, id: nat)
    | TryClaim(w: nat, owner: string, duration: int, now: int)
    | CallProvider(w: nat, result: ProviderResult)
    | ReportBack(w: nat, owner: string, code: string, now: int)
    | Consume(w: nat)
    | Crash(w: nat)
    | CallbackArrives(id: nat, callbackId: string, completed: bool, code: string, now: int)

  function PcOf(s: Sys, w: nat): Pc {
    if w in s.workers then s.workers[w] else Idle
  }

  function Goto(s: Sys, w: nat, pc: Pc): Sys {
    s.(workers := s.workers[w := pc])
  }

  function SetCell(s: Sys, id: nat, c: Cell): Sys
    requires id in s.items
  {
    s.(items := s.items[id := s.items[id].(cell := c)])
  }

  function ReportOf(r: ProviderResult, code: string): Report {
    match r
    case Success => Accepted
    case Retryable(delay) => RetryAfter(delay, code)
    case _ => FailedFor(code)
  }

  // ── Steps; a step that is not enabled changes nothing ────────────────────

  function EnqueueStep(s: Sys, id: nat, r: StableJson.Request, now: int): Sys {
    if id in s.items then s else s.(items := s.items[id := Item(NewCell(id, r, now), false, [])])
  }

  /** The listing may be old: another worker may have consumed the row since. */
  function ListStep(s: Sys, w: nat, id: nat): Sys {
    if PcOf(s, w).Idle? && id in s.items then Goto(s, w, Listed(id)) else s
  }

  function ClaimStep(s: Sys, w: nat, owner: string, duration: int, now: int): Sys {
    match PcOf(s, w)
    case Listed(id) =>
      if id !in s.items || owner == "" || duration <= 0 then s
      else
        var c := s.items[id].cell;
        (match ClaimDisposition(c.action, now)
         case Claimed =>
           var c' := Claim(c, owner, duration, now);
           Goto(SetCell(s, id, c'), w, Calling(id, c'.action.dispatchAttempts))
         case SettledAlready => Goto(s, w, Consuming(id))
         case _ => Goto(s, w, Idle))
    case _ => s
  }

  function CallStep(s: Sys, w: nat, r: ProviderResult): Sys {
    match PcOf(s, w)
    case Calling(id, n) =>
      if id !in s.items then s
      else
        var item := s.items[id];
        Goto(s.(items := s.items[id := item.(calls := item.calls + [n])]), w,
             if r.Threw? then Idle else Called(id, n, r))
    case _ => s
  }

  function ReportStep(s: Sys, w: nat, owner: string, code: string, now: int): Sys {
    match PcOf(s, w)
    case Called(id, _, r) =>
      if id !in s.items then s
      else
        (match ReportDispatch(s.items[id].cell, owner, ReportOf(r, code), now)
         case Err(_) => Goto(s, w, Idle)
         case Ok(c) => Goto(SetCell(s, id, c), w, if r.Retryable? then Idle else Consuming(id)))
    case _ => s
  }

  function ConsumeStep(s: Sys, w: nat): Sys {
    match PcOf(s, w)
    case Consuming(id) =>
      if id !in s.items then s
      else Goto(s.(items := s.items[id := s.items[id].(consumed := true)]), w, Idle)
    case _ => s
  }

  function CallbackStep(s: Sys, id: nat, callbackId: string, completed: bool, code: string, now: int): Sys {
    if id !in s.items then s
    else
      match RecordOutcome(s.items[id].cell, callbackId, completed, code, now)
      case Err(_) => s
      case Ok(c) => SetCell(s, id, c)
  }

  function Do(s: Sys, l: Label): Sys {
    match l
    case Enqueue(id, r, now) => EnqueueStep(s, id, r, now)
    case List(w, id) => ListStep(s, w, id)
    case TryClaim(w, owner, duration, now) => ClaimStep(s, w, owner, duration, now)
    case CallProvider(w, r) => CallStep(s, w, r)
    case ReportBack(w, owner, code, now) => ReportStep(s, w, owner, code, now)
    case Consume(w) => ConsumeStep(s, w)
    case Crash(w) => Goto(s, w, Idle)
    case CallbackArrives(id, cb, completed, code, now) => CallbackStep(s, id, cb, completed, code, now)
  }

  function RunAll(s: Sys, labels: seq<Label>): Sys {
    Steps.Run(s, labels, Do)
  }

  const Start := Sys(map[], map[])

  // ── The invariant ────────────────────────────────────────────────────────

  predicate DistinctCalls(calls: seq<nat>, attempts: nat) {
    && (forall i | 0 <= i < |calls| :: 1 <= calls[i] <= attempts)
    && (forall i, j | 0 <= i < j < |calls| :: calls[i] != calls[j])
  }

  predicate GoodItem(i: Item) {
    match i
    case Item(cell, consumed, calls) =>
      && Consistent(cell)
      && (consumed ==> IsSettled(cell.action.state))
      && DistinctCalls(calls, cell.action.dispatchAttempts)
  }

  /** What a program counter guarantees about the item it is at. */
  predicate GoodPc(pc: Pc, items: map<nat, Item>) {
    match pc
    case Idle => true
    case Listed(id) => id in items
    case Calling(id, n) =>
      id in items && 1 <= n <= items[id].cell.action.dispatchAttempts && n !in items[id].calls
    case Called(id, _, r) => id in items && !r.Threw?
    case Consuming(id) => id in items && IsSettled(items[id].cell.action.state)
  }

  ghost predicate GoodItems(items: map<nat, Item>) {
    forall id {:trigger id in items} | id in items :: GoodItem(items[id])
  }

  ghost predicate GoodPcs(s: Sys) {
    forall w {:trigger w in s.workers} | w in s.workers :: GoodPc(s.workers[w], s.items)
  }

  /** No two workers are about to call for the same attempt. */
  ghost predicate ExclusiveAttempts(workers: map<nat, Pc>) {
    forall v, w {:trigger v in workers, w in workers} | v in workers && w in workers && v != w ::
      !(workers[v].Calling? && workers[v] == workers[w])
  }

  ghost predicate Inv(s: Sys) {
    match s
    case Sys(items, workers) => GoodItems(items) && GoodPcs(s) && ExclusiveAttempts(workers)
  }

  /** An item may be claimed, settled, consumed and called for, never undone. */
  predicate Grows(a: Item, b: Item) {
    && a.cell.action.dispatchAttempts <= b.cell.action.dispatchAttempts
    && (IsSettled(a.cell.action.state) ==> IsSettled(b.cell.action.state))
    && (a.consumed ==> b.consumed)
  }

  /** Replacing one item by a later one disturbs no worker, as long as no pending attempt is called for. */
  lemma ReplaceItemKeepsPcs(s: Sys, id: nat, item: Item)
    requires GoodPcs(s) && id in s.items && Grows(s.items[id], item) && item.calls == s.items[id].calls
    ensures GoodPcs(s.(items := s.items[id := item]))
  {
    var items' := s.items[id := item];
    forall w | w in s.workers
      ensures GoodPc(s.workers[w], items')
    {
      assert GoodPc(s.workers[w], s.items);
    }
  }

  lemma GotoKeepsInv(s: Sys, w: nat, pc: Pc)
    requires Inv(s) && GoodPc(pc, s.items)
    requires pc.Calling? ==> forall v {:trigger v in s.workers} | v in s.workers && v != w :: s.workers[v] != pc
    ensures Inv(Goto(s, w, pc))
  {
  }

  lemma ReplaceItemKeepsInv(s: Sys, id: nat, item: Item)
    requires Inv(s) && id in s.items && GoodItem(item) && Grows(s.items[id], item)
    requires item.calls == s.items[id].calls
    ensures Inv(s.(items := s.items[id := item]))
  {
    ReplaceItemKeepsPcs(s, id, item);
  }

  lemma DistinctCallsGrow(calls: seq<nat>, n: nat, m: nat)
    requires DistinctCalls(calls, n) && n <= m
    ensures DistinctCalls(calls, m)
  {
  }

  lemma ClaimKeepsInv(s: Sys, w: nat, owner: string, duration: int, now: int)
    requires Inv(s)
    ensures Inv(ClaimStep(s, w, owner, duration, now))
  {
    var s' := ClaimStep(s, w, owner, duration, now);
    if PcOf(s, w).Listed? && owner != "" && duration > 0 {
      var id := PcOf(s, w).id;
      assert GoodPc(PcOf(s, w), s.items);
      var item := s.items[id];
      var c := item.cell;
      assert GoodItem(item);
      if ClaimDisposition(c.action, now).Claimed? {
        var c' := Claim(c, owner, duration, now);
        var n := c'.action.dispatchAttempts;
        NextKeepsConsistent(c, Step(ClaimOp(owner, duration), now));
        DistinctCallsGrow(item.calls, c.action.dispatchAttempts, n);
        ReplaceItemKeepsInv(s, id, item.(cell := c'));
        var t := SetCell(s, id, c');
        assert forall i | 0 <= i < |item.calls| :: item.calls[i] != n;
        forall v | v in t.workers && v != w
          ensures t.workers[v] != Calling(id, n)
        {
          assert GoodPc(s.workers[v], s.items);
        }
        GotoKeepsInv(t, w, Calling(id, n));
      } else if ClaimDisposition(c.action, now).SettledAlready? {
        GotoKeepsInv(s, w, Consuming(id));
      } else {
        GotoKeepsInv(s, w, Idle);
      }
    }
  }

  lemma CallKeepsInv(s: Sys, w: nat, r: ProviderResult)
    requires Inv(s)
    ensures Inv(CallStep(s, w, r))
  {
    if PcOf(s, w).Calling? {
      var id, n := PcOf(s, w).id, PcOf(s, w).attempt;
      assert GoodPc(s.workers[w], s.items) && GoodItem(s.items[id]);
      var item := s.items[id];
      var item' := item.(calls := item.calls + [n]);
      var s' := CallStep(s, w, r);
      assert s'.items == s.items[id := item'];
      assert DistinctCalls(item'.calls, item'.cell.action.dispatchAttempts);
      forall v | v in s'.workers
        ensures GoodPc(s'.workers[v], s'.items)
      {
        if v != w {
          assert v in s.workers && w in s.workers && GoodPc(s.workers[v], s.items);
          assert s.workers[v] != Calling(id, n);
        }
      }
      assert forall v {:trigger v in s'.workers} | v in s'.workers && v != w ::
          v in s.workers && s'.workers[v] == s.workers[v];
    }
  }

  lemma ReportKeepsInv(s: Sys, w: nat, owner: string, code: string, now: int)
    requires Inv(s)
    ensures Inv(ReportStep(s, w, owner, code, now))
  {
    if PcOf(s, w).Called? {
      var Called(id, n, r) := PcOf(s, w);
      assert GoodPc(s.workers[w], s.items) && GoodItem(s.items[id]);
      var c := s.items[id].cell;
      var done := ReportDispatch(c, owner, ReportOf(r, code), now);
      if done.Ok? {
        NextKeepsConsistent(c, Step(ReportOp(owner, ReportOf(r, code)), now));
        ReplaceItemKeepsInv(s, id, s.items[id].(cell := done.value));
        GotoKeepsInv(SetCell(s, id, done.value), w, if r.Retryable? then Idle else Consuming(id));
      } else {
        GotoKeepsInv(s, w, Idle);
      }
    }
  }

  lemma CallbackKeepsInv(s: Sys, id: nat, cb: string, completed: bool, code: string, now: int)
    requires Inv(s)
    ensures Inv(CallbackStep(s, id, cb, completed, code, now))
  {
    if id in s.items {
      var c := s.items[id].cell;
      assert GoodItem(s.items[id]);
      var done := RecordOutcome(c, cb, completed, code, now);
      if done.Ok? {
        NextKeepsConsistent(c, Step(OutcomeOp(cb, completed, code), now));
        ReplaceItemKeepsInv(s, id, s.items[id].(cell := done.value));
      }
    }
  }

  lemma ConsumeKeepsInv(s: Sys, w: nat)
    requires Inv(s)
    ensures Inv(ConsumeStep(s, w))
  {
    if PcOf(s, w).Consuming? {
      var id := PcOf(s, w).id;
      assert GoodPc(s.workers[w], s.items) && GoodItem(s.items[id]);
      ReplaceItemKeepsInv(s, id, s.items[id].(consumed := true));
      GotoKeepsInv(s.(items := s.items[id := s.items[id].(consumed := true)]), w, Idle);
    }
  }

  lemma EnqueueKeepsInv(s: Sys, id: nat, r: StableJson.Request, now: int)
    requires Inv(s)
    ensures Inv(EnqueueStep(s, id, r, now))
  {
    if id !in s.items {
      var s' := EnqueueStep(s, id, r, now);
      ReachableIsConsistent(id, r, now, []);
      forall w | w in s'.workers
        ensures GoodPc(s'.workers[w], s'.items)
      {
        assert GoodPc(s.workers[w], s.items);
      }
    }
  }

  lemma DoKeepsInv(s: Sys, l: Label)
    requires Inv(s)
    ensures Inv(Do(s, l))
  {
    match l
    case Enqueue(id, r, now) => EnqueueKeepsInv(s, id, r, now);
    case List(w, id) =>
      if id in s.items {
        GotoKeepsInv(s, w, Listed(id));
      }
    case TryClaim(w, owner, duration, now) => ClaimKeepsInv(s, w, owner, duration, now);
    case CallProvider(w, r) => CallKeepsInv(s, w, r);
    case ReportBack(w, owner, code, now) => ReportKeepsInv(s, w, owner, code, now);
    case Consume(w) => ConsumeKeepsInv(s, w);
    case Crash(w) => GotoKeepsInv(s, w, Idle);
    case CallbackArrives(id, cb, completed, code, now) => CallbackKeepsInv(s, id, cb, completed, code, now);
  }

  lemma {:induction false} RunKeepsInv(s: Sys, labels: seq<Label>)
    requires Inv(s)
    ensures Inv(RunAll(s, labels))
    decreases |labels|
  {
    if labels != [] {
      DoKeepsInv(s, labels[0]);
      RunKeepsInv(Do(s, labels[0]), labels[1..]);
    }
  }

  // ── Main results ─────────────────────────────────────────────────────────

  /** Distinct numbers in 1..n: there are at most n of them. */
  lemma {:induction false} Pigeonhole(calls: seq<nat>, n: nat)
    requires DistinctCalls(calls, n)
    ensures |calls| <= n
  {
    assert calls != [] ==> 1 <= calls[0] <= n;
    if n > 0 && n in calls {
      var k :| 0 <= k < |calls| && calls[k] == n;
      var rest := calls[..k] + calls[k + 1..];
      assert forall i | 0 <= i < |rest| :: rest[i] == calls[if i < k then i else i + 1];
      Pigeonhole(rest, n - 1);
    } else if n > 0 {
      assert forall i | 0 <= i < |calls| :: calls[i] in calls;
      Pigeonhole(calls, n - 1);
    }
  }

  /**
   * No approved action is lost, and n8n is never called more often than the
   * ledger says: in every reachable state a dispatch row is unconsumed or its
   * action is dispatched, completed or failed; each attempt number led to at
   * most one external call, so calls never exceed `dispatchAttempts`.
   */
  lemma NoActionIsLost(labels: seq<Label>, id: nat)
    requires id in RunAll(Start, labels).items
    ensures var item := RunAll(Start, labels).items[id];
            && (!item.consumed || IsSettled(item.cell.action.state))
            && DistinctCalls(item.calls, item.cell.action.dispatchAttempts)
            && |item.calls| <= item.cell.action.dispatchAttempts
            && Consistent(item.cell)
  {
    RunKeepsInv(Start, labels);
    var item := RunAll(Start, labels).items[id];
    assert GoodItem(item);
    Pigeonhole(item.calls, item.cell.action.dispatchAttempts);
  }

  /** A time at which neither a lease nor a retry delay holds the action back. */
  function FreeAt(a: Action): int {
    var t := if a.dispatchLeaseExpiresAt.Some? then a.dispatchLeaseExpiresAt.value else 0;
    if a.nextRetryAt.Some? && a.nextRetryAt.value > t then a.nextRetryAt.value else t
  }

  /** One worker, restarted, taking the row from the list to consumption. */
  function Recovery(w: nat, id: nat, owner: string, now: int, settled: bool): seq<Label> {
    [Crash(w)] + ([List(w, id)] + ([TryClaim(w, owner, 1, now)] + (
      if settled then [Consume(w)] + []
      else [CallProvider(w, Success)] + ([ReportBack(w, owner, "", now)] + ([Consume(w)] + [])))))
  }

  lemma RunAllCons(s: Sys, l: Label, rest: seq<Label>)
    ensures RunAll(s, [l] + rest) == RunAll(Do(s, l), rest)
  {
    assert ([l] + rest)[1..] == rest;
  }

  lemma RestartLists(s: Sys, w: nat, id: nat)
    requires id in s.items && !s.items[id].consumed
    ensures Do(Do(s, Crash(w)), List(w, id)) == s.(workers := s.workers[w := Listed(id)])
  {
    assert s.workers[w := Idle][w := Listed(id)] == s.workers[w := Listed(id)];
  }

  lemma ReachesClaim(s: Sys, w: nat, id: nat, owner: string, now: int, rest: seq<Label>)
    requires id in s.items && !s.items[id].consumed && owner != ""
    ensures RunAll(s, [Crash(w)] + ([List(w, id)] + ([TryClaim(w, owner, 1, now)] + rest)))
         == RunAll(Do(s.(workers := s.workers[w := Listed(id)]), TryClaim(w, owner, 1, now)), rest)
  {
    var r1 := [TryClaim(w, owner, 1, now)] + rest;
    var r2 := [List(w, id)] + r1;
    RestartLists(s, w, id);
    RunAllCons(s, Crash(w), r2);
    RunAllCons(Do(s, Crash(w)), List(w, id), r1);
    RunAllCons(s.(workers := s.workers[w := Listed(id)]), TryClaim(w, owner, 1, now), rest);
  }

  lemma ConsumesSettled(s: Sys, w: nat, id: nat)
    requires id in s.items && IsSettled(s.items[id].cell.action.state) && PcOf(s, w) == Consuming(id)
    ensures var s' := RunAll(s, [Consume(w)] + []);
            id in s'.items && s'.items[id].consumed && IsSettled(s'.items[id].cell.action.state)
  {
    RunAllCons(s, Consume(w), []);
  }

  lemma DeliversClaimed(s: Sys, w: nat, id: nat, n: nat, owner: string, now: int)
    requires id in s.items && PcOf(s, w) == Calling(id, n) && Holds(s.items[id].cell.action, owner)
    ensures var s' := RunAll(s, [CallProvider(w, Success)] + ([ReportBack(w, owner, "", now)] + ([Consume(w)] + [])));
            id in s'.items && s'.items[id].consumed && IsSettled(s'.items[id].cell.action.state)
  {
    var s1 := Do(s, CallProvider(w, Success));
    var s2 := Do(s1, ReportBack(w, owner, "", now));
    RunAllCons(s, CallProvider(w, Success), [ReportBack(w, owner, "", now)] + ([Consume(w)] + []));
    RunAllCons(s1, ReportBack(w, owner, "", now), [Consume(w)] + []);
    ConsumesSettled(s2, w, id);
  }

  /**
   * Nothing blocks for good: from every reachable state, whatever crashed and
   * whoever holds a lease, one restarted worker can bring an unconsumed row to
   * consumption once the lease or retry time has passed.
   */
  lemma UnconsumedRowIsRecoverable(labels: seq<Label>, id: nat, w: nat, owner: string)
    requires id in RunAll(Start, labels).items && !RunAll(Start, labels).items[id].consumed && owner != ""
    ensures var s := RunAll(Start, labels);
            var a := s.items[id].cell.action;
            var s' := RunAll(s, Recovery(w, id, owner, FreeAt(a), IsSettled(a.state)));
            id in s'.items && s'.items[id].consumed && IsSettled(s'.items[id].cell.action.state)
  {
    var s := RunAll(Start, labels);
    var a := s.items[id].cell.action;
    var now := FreeAt(a);
    var listed := s.(workers := s.workers[w := Listed(id)]);
    var claimed := Do(listed, TryClaim(w, owner, 1, now));
    if IsSettled(a.state) {
      ReachesClaim(s, w, id, owner, now, [Consume(w)] + []);
      ConsumesSettled(claimed, w, id);
    } else {
      ReachesClaim(s, w, id, owner, now,
                   [CallProvider(w, Success)] + ([ReportBack(w, owner, "", now)] + ([Consume(w)] + [])));
      DeliversClaimed(claimed, w, id, a.dispatchAttempts + 1, owner, now);
    }
  }
}
