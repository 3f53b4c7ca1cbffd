/**
 * What one turn of a publisher leaves in the action it is about, in terms of
 * the action's fields and ledger and of what n8n answered, whatever others do
 * in between; and what is left when nobody else acts.
 */
module PublisherTurns {
  import opened Text
  import opened DispatchProtocol
  import opened DispatchStore
  import opened PublisherRuns
  import EA = ExternalActions
  import Repo = ExternalActionsRepository
  import Steps

  predicate IsSettled(a: EA.Action) {
    a.state.Dispatched? || a.state.Completed? || a.state.Failed?
  }

  /** What the claim found, and what it left. */
  predicate ClaimLeft(way: Way, c: Config, at: int, before: EA.Cell, after: EA.Cell) {
    match way
    case Untouched => false
    case Settling => IsSettled(before.action) && after == before
    case Deferring => !IsSettled(before.action) && EA.HeldBack(before.action, at) && after == before
    case _ => !EA.HeldBack(before.action, at) && EA.Started(before, after, c.workerId, c.leaseMs, at)
  }

  /** What the report of n8n's answer left: one entry about the attempt, unless the action was settled meanwhile. */
  predicate AnswerLeft(answer: Provider, backoff: int, at: int, before: EA.Cell, after: EA.Cell) {
    var n := before.action.dispatchAttempts;
    if IsSettled(before.action) then after == before
    else match answer
         case Accepts => EA.EndsAttempt(before, after, EA.DispatchAccepted(n)) && after.action.state.Dispatched?
         case Refuses(code) =>
           && EA.EndsAttempt(before, after, EA.DispatchFailed(n)) && after.action.state.Failed?
           && after.action.lastErrorCode == Some(code)
         case Retryable(code) =>
           && EA.EndsAttempt(before, after, EA.RetryEntry(n)) && after.action.state.RetryScheduled?
           && after.action.nextRetryAt == Some(at + backoff) && after.action.lastErrorCode == Some(code)
         case Throws => false
  }

  /** A step of the worker's own that leaves both stores in a state of the protocol. */
  lemma StepArrives(w: nat, from: Snap, past: Past, x: Snap, l: Label, y: Snap, pc: Pc)
    requires Went(w, from, past, x) && ByWorker(l, w) && Enabled(x.s, l) && y.s == Do(x.s, l)
    requires StoreAdvances(x.cells, y.cells) && y.log == x.log && Holds(y.s, y.cells, y.log) && PcOf(y.s, w) == pc
    ensures Stands(w, from, Then(past, l), y, pc)
  {
    WentMyStep(w, from, past, x, l, y);
  }

  // ── Finding a worker's steps in a run ────────────────────────────────────

  ghost predicate GoodCells(s: Sys) {
    forall i {:trigger i in s.items} | i in s.items :: EA.Consistent(s.items[i].cell)
  }

  lemma StepKeepsGood(s: Sys, l: Label)
    requires GoodCells(s)
    ensures GoodCells(Do(s, l))
  {
    match l
    case Enqueue(i, r, now) => EA.ReachableIsConsistent(i, r, now, []);
    case TryClaim(w, owner, duration, now) =>
      if PcOf(s, w).Listed? && PcOf(s, w).id in s.items {
        EA.NextKeepsConsistent(s.items[PcOf(s, w).id].cell, EA.Step(EA.ClaimOp(owner, duration), now));
      }
    case ReportBack(w, owner, code, now) =>
      if PcOf(s, w).Called? && PcOf(s, w).id in s.items {
        EA.NextKeepsConsistent(s.items[PcOf(s, w).id].cell,
                               EA.Step(EA.ReportOp(owner, ReportOf(PcOf(s, w).result, code)), now));
      }
    case CallbackArrives(i, cb, completed, code, now) =>
      if i in s.items {
        EA.NextKeepsConsistent(s.items[i].cell, EA.Step(EA.OutcomeOp(cb, completed, code), now));
      }
    case _ =>
  }

  /** Where a worker's next step is: before it only others act. */
  ghost predicate IsNext(s: Sys, labels: seq<Label>, w: nat, l: Label, rest: seq<Label>, k: nat) {
    && k < |labels| && labels[k] == l && OwnOf(labels[k + 1..], w) == rest
    && var t := Steps.Run(s, labels[..k], Do);
       && PcOf(t, w) == PcOf(s, w) && Enabled(t, l) && GoodCells(t) && GoodCells(Do(t, l))
       && Steps.Run(s, labels[..k + 1], Do) == Do(t, l) && OwnEnabled(Do(t, l), labels[k + 1..], w)
  }

  lemma OwnOfHead(l: Label, labels: seq<Label>, w: nat)
    ensures OwnOf([l] + labels, w) == (if ByWorker(l, w) then [l] else []) + OwnOf(labels, w)
  {
    assert [l][..0] == [];
    OwnAppend([l], labels, w);
  }

  lemma EnabledTail(s: Sys, labels: seq<Label>, w: nat)
    requires labels != [] && OwnEnabled(s, labels, w)
    ensures OwnEnabled(Do(s, labels[0]), labels[1..], w)
    ensures ByWorker(labels[0], w) ==> Enabled(s, labels[0])
  {
    assert labels[..0] == [];
    assert Steps.Run(s, labels[..0], Do) == s;
    forall k | 0 <= k < |labels| - 1 && ByWorker(labels[1..][k], w)
      ensures Enabled(Steps.Run(Do(s, labels[0]), labels[1..][..k], Do), labels[1..][k])
    {
      assert labels[..k + 1][1..] == labels[1..][..k] && labels[..k + 1][0] == labels[0];
      assert labels[k + 1] == labels[1..][k];
    }
  }

  lemma {:induction false} NextOwn(s: Sys, labels: seq<Label>, w: nat, l: Label, rest: seq<Label>) returns (k: nat)
    requires GoodCells(s) && OwnEnabled(s, labels, w) && OwnOf(labels, w) == [l] + rest
    ensures IsNext(s, labels, w, l, rest, k)
    decreases |labels|
  {
    assert labels != [];
    var head, tail := labels[0], labels[1..];
    assert labels == [head] + tail;
    OwnOfHead(head, tail, w);
    EnabledTail(s, labels, w);
    StepKeepsGood(s, head);
    if ByWorker(head, w) {
      k := 0;
      assert ([l] + rest)[0] == head && ([l] + rest)[1..] == rest;
      assert ([head] + OwnOf(tail, w))[1..] == OwnOf(tail, w);
      assert labels[..0] == [];
      Steps.Prefix(s, labels, 0, Do);
    } else {
      assert [] + OwnOf(tail, w) == OwnOf(tail, w);
      OthersLeave(s, head, w);
      var j := NextOwn(Do(s, head), tail, w, l, rest);
      k := j + 1;
      NextShifts(s, labels, w, l, rest, j);
    }
  }

  lemma OthersLeave(s: Sys, l: Label, w: nat)
    requires !ByWorker(l, w)
    ensures PcOf(Do(s, l), w) == PcOf(s, w)
  {
  }

  lemma NextShifts(s: Sys, labels: seq<Label>, w: nat, l: Label, rest: seq<Label>, j: nat)
    requires labels != [] && IsNext(Do(s, labels[0]), labels[1..], w, l, rest, j)
    requires PcOf(Do(s, labels[0]), w) == PcOf(s, w)
    ensures IsNext(s, labels, w, l, rest, j + 1)
  {
    var tail := labels[1..];
    assert tail[j + 1..] == labels[j + 2..];
    assert labels[..j + 1][0] == labels[0] && labels[..j + 1][1..] == tail[..j];
    assert labels[..j + 2][0] == labels[0] && labels[..j + 2][1..] == tail[..j + 1];
  }

  lemma {:induction false} SilentKeepsPc(s: Sys, labels: seq<Label>, w: nat)
    requires OwnOf(labels, w) == []
    ensures PcOf(Steps.Run(s, labels, Do), w) == PcOf(s, w)
    decreases |labels|
  {
    if labels != [] {
      assert labels == [labels[0]] + labels[1..];
      OwnOfHead(labels[0], labels[1..], w);
      OthersLeave(s, labels[0], w);
      SilentKeepsPc(Do(s, labels[0]), labels[1..], w);
    }
  }

  // ── A moment of the run ──────────────────────────────────────────────────

  /** At this place the run makes this step, which takes the action from the one cell to the other. */
  ghost predicate TookTo(start: Sys, labels: seq<Label>, k: nat, l: Label, i: nat, before: EA.Cell, after: EA.Cell) {
    && k < |labels| && labels[k] == l
    && var s := Steps.Run(start, labels[..k], Do);
       i in s.items && s.items[i].cell == before && i in Do(s, l).items && Do(s, l).items[i].cell == after
  }

  /** The claim of this way was made, at this place or later. */
  ghost predicate Claimed(way: Way, i: nat, w: nat, c: Config, world: World, start: Sys, labels: seq<Label>,
                          base: nat) {
    exists k: nat, before, after | k >= base ::
      && TookTo(start, labels, k, TryClaim(w, c.workerId, c.leaseMs, world.claimAt), i, before, after)
      && ClaimLeft(way, c, world.claimAt, before, after)
  }

  /** So was the report of the answer. */
  ghost predicate Answered(i: nat, w: nat, c: Config, world: World, start: Sys, labels: seq<Label>, base: nat) {
    exists k: nat, code, before, after | k >= base ::
      && TookTo(start, labels, k, ReportBack(w, c.workerId, code, world.reportAt), i, before, after)
      && AnswerLeft(world.provider, c.retryBackoffMs, world.reportAt, before, after)
  }

  /** What the way a row went says of the action it is about, by its fields and its ledger. */
  ghost predicate Turned(way: Way, i: nat, w: nat, c: Config, world: World, start: Sys, labels: seq<Label>, base: nat) {
    match way
    case Untouched => true
    case Retrying =>
      && world.provider.Retryable? && Claimed(way, i, w, c, world, start, labels, base)
      && Answered(i, w, c, world, start, labels, base)
    case Reporting =>
      && (world.provider.Accepts? || world.provider.Refuses?) && Claimed(way, i, w, c, world, start, labels, base)
      && Answered(i, w, c, world, start, labels, base)
    case Throwing => world.provider.Throws? && Claimed(way, i, w, c, world, start, labels, base)
    case _ => Claimed(way, i, w, c, world, start, labels, base)
  }

  lemma TookToShifts(start: Sys, a: seq<Label>, b: seq<Label>, k: nat, l: Label, i: nat, before: EA.Cell,
                     after: EA.Cell)
    requires TookTo(Steps.Run(start, a, Do), b, k, l, i, before, after)
    ensures TookTo(start, a + b, |a| + k, l, i, before, after)
  {
    assert (a + b)[..|a| + k] == a + b[..k];
    Steps.Append(start, a, b[..k], Do);
  }

  lemma TookToExtends(start: Sys, a: seq<Label>, b: seq<Label>, k: nat, l: Label, i: nat, before: EA.Cell,
                      after: EA.Cell)
    requires TookTo(start, a, k, l, i, before, after) && a <= b
    ensures TookTo(start, b, k, l, i, before, after)
  {
    assert b[..k] == a[..k];
  }

  /** More steps take nothing back. */
  lemma TurnedExtends(way: Way, i: nat, w: nat, c: Config, world: World, start: Sys, a: seq<Label>, b: seq<Label>,
                      base: nat, lower: nat)
    requires Turned(way, i, w, c, world, start, a, base) && a <= b && lower <= base
    ensures Turned(way, i, w, c, world, start, b, lower)
  {
    if !way.Untouched? {
      var k: nat, before, after :|
        && k >= base && TookTo(start, a, k, TryClaim(w, c.workerId, c.leaseMs, world.claimAt), i, before, after)
        && ClaimLeft(way, c, world.claimAt, before, after);
      TookToExtends(start, a, b, k, TryClaim(w, c.workerId, c.leaseMs, world.claimAt), i, before, after);
    }
    if way.Retrying? || way.Reporting? {
      AnsweredExtends(i, w, c, world, start, a, b, base, lower);
    }
  }

  lemma AnsweredExtends(i: nat, w: nat, c: Config, world: World, start: Sys, a: seq<Label>, b: seq<Label>,
                        base: nat, lower: nat)
    requires Answered(i, w, c, world, start, a, base) && a <= b && lower <= base
    ensures Answered(i, w, c, world, start, b, lower)
  {
    var k: nat, code, before, after :|
      && k >= base && TookTo(start, a, k, ReportBack(w, c.workerId, code, world.reportAt), i, before, after)
      && AnswerLeft(world.provider, c.retryBackoffMs, world.reportAt, before, after);
    TookToExtends(start, a, b, k, ReportBack(w, c.workerId, code, world.reportAt), i, before, after);
  }

  // ── What each step does ──────────────────────────────────────────────────

  lemma ClaimTook(t: Sys, w: nat, owner: string, duration: int, at: int, i: nat)
    requires PcOf(t, w) == Listed(i) && i in t.items && EA.Consistent(t.items[i].cell) && owner != "" && duration > 0
    ensures var u, before := Do(t, TryClaim(w, owner, duration, at)), t.items[i].cell;
            && i in u.items
            && if EA.HeldBack(before.action, at)
               then u.items[i].cell == before && PcOf(u, w) == if IsSettled(before.action) then Consuming(i) else Idle
               else EA.Started(before, u.items[i].cell, owner, duration, at)
                    && PcOf(u, w) == Calling(i, before.action.dispatchAttempts + 1)
  {
    EA.ClaimStartsIff(t.items[i].cell, owner, duration, at);
  }

  lemma CallTook(t: Sys, w: nat, i: nat, n: nat, r: ProviderResult)
    requires PcOf(t, w) == Calling(i, n) && i in t.items
    ensures var u := Do(t, CallProvider(w, r));
            && i in u.items && u.items[i].cell == t.items[i].cell
            && PcOf(u, w) == if r.Threw? then Idle else Called(i, n, r)
  {
  }

  lemma ReportTook(t: Sys, w: nat, c: Config, world: World, i: nat, n: nat)
    requires PcOf(t, w) == Called(i, n, ResultOf(c, world.provider)) && !world.provider.Throws?
    requires Enabled(t, Report(w, c, world)) && EA.Consistent(t.items[i].cell)
    ensures var u := Do(t, Report(w, c, world));
            && i in u.items
            && AnswerLeft(world.provider, c.retryBackoffMs, world.reportAt, t.items[i].cell, u.items[i].cell)
  {
    var report := ReportOf(ResultOf(c, world.provider), CodeOf(world.provider));
    EA.ReportLeaves(t.items[i].cell, c.workerId, report, world.reportAt);
  }

  // ── Every turn is found in its run ───────────────────────────────────────

  lemma Shift(x: Sys, d: seq<Label>, k: nat, j: nat, l: Label, i: nat, before: EA.Cell, after: EA.Cell)
    requires k < |d| && TookTo(Steps.Run(x, d[..k + 1], Do), d[k + 1..], j, l, i, before, after)
    ensures TookTo(x, d, k + 1 + j, l, i, before, after)
  {
    assert d[..k + 1 + j] == d[..k + 1] + d[k + 1..][..j] && d[k + 1 + j] == d[k + 1..][j];
    Steps.Append(x, d[..k + 1], d[k + 1..][..j], Do);
  }

  lemma ClaimedShifts(x: Sys, d: seq<Label>, k: nat, way: Way, i: nat, w: nat, c: Config, world: World)
    requires k < |d| && Claimed(way, i, w, c, world, Steps.Run(x, d[..k + 1], Do), d[k + 1..], 0)
    ensures Claimed(way, i, w, c, world, x, d, 0)
  {
    var l := TryClaim(w, c.workerId, c.leaseMs, world.claimAt);
    var j: nat, before, after :|
      && TookTo(Steps.Run(x, d[..k + 1], Do), d[k + 1..], j, l, i, before, after)
      && ClaimLeft(way, c, world.claimAt, before, after);
    Shift(x, d, k, j, l, i, before, after);
  }

  lemma AnsweredShifts(x: Sys, d: seq<Label>, k: nat, i: nat, w: nat, c: Config, world: World)
    requires k < |d| && Answered(i, w, c, world, Steps.Run(x, d[..k + 1], Do), d[k + 1..], 0)
    ensures Answered(i, w, c, world, x, d, 0)
  {
    var j: nat, code, before, after :|
      && TookTo(Steps.Run(x, d[..k + 1], Do), d[k + 1..], j, ReportBack(w, c.workerId, code, world.reportAt), i, before,
                after)
      && AnswerLeft(world.provider, c.retryBackoffMs, world.reportAt, before, after);
    Shift(x, d, k, j, ReportBack(w, c.workerId, code, world.reportAt), i, before, after);
  }

  /** Where the worker is to be in the end. */
  predicate EndsAt(way: Way, i: nat, pc: Pc) {
    match way
    case Settling => pc == Consuming(i)
    case Deferring => pc.Idle?
    case _ => true
  }

  lemma FindTurn(x: Sys, d: seq<Label>, way: Way, i: nat, w: nat, c: Config, world: World)
    requires GoodCells(x) && OwnEnabled(x, d, w) && OwnOf(d, w) == Body(way, i, w, c, world) && !way.Untouched?
    requires Suits(way, world.provider) && EndsAt(way, i, PcOf(Steps.Run(x, d, Do), w))
    ensures Turned(way, i, w, c, world, x, d, 0)
  {
    var claim := TryClaim(w, c.workerId, c.leaseMs, world.claimAt);
    assert Head(i, w, c, world) + Rest(way, w, c, world) == [List(w, i)] + ([claim] + Rest(way, w, c, world));
    var k := NextOwn(x, d, w, List(w, i), [claim] + Rest(way, w, c, world));
    RunSplits(x, d, k);
    FindClaim(Steps.Run(x, d[..k + 1], Do), d[k + 1..], way, i, w, c, world);
    ClaimedShifts(x, d, k, way, i, w, c, world);
    if way.Retrying? || way.Reporting? {
      AnsweredShifts(x, d, k, i, w, c, world);
    }
  }

  lemma RunSplits(x: Sys, d: seq<Label>, k: nat)
    requires k < |d|
    ensures Steps.Run(Steps.Run(x, d[..k + 1], Do), d[k + 1..], Do) == Steps.Run(x, d, Do)
  {
    Steps.Append(x, d[..k + 1], d[k + 1..], Do);
    assert d[..k + 1] + d[k + 1..] == d;
  }

  lemma FindClaim(x: Sys, d: seq<Label>, way: Way, i: nat, w: nat, c: Config, world: World)
    requires GoodCells(x) && OwnEnabled(x, d, w) && PcOf(x, w) == Listed(i) && !way.Untouched?
    requires OwnOf(d, w) == [TryClaim(w, c.workerId, c.leaseMs, world.claimAt)] + Rest(way, w, c, world)
    requires Suits(way, world.provider) && EndsAt(way, i, PcOf(Steps.Run(x, d, Do), w))
    ensures Claimed(way, i, w, c, world, x, d, 0)
    ensures way.Retrying? || way.Reporting? ==> Answered(i, w, c, world, x, d, 0)
  {
    var claim := TryClaim(w, c.workerId, c.leaseMs, world.claimAt);
    var k := NextOwn(x, d, w, claim, Rest(way, w, c, world));
    var t, u, later := Steps.Run(x, d[..k], Do), Steps.Run(x, d[..k + 1], Do), d[k + 1..];
    ClaimTook(t, w, c.workerId, c.leaseMs, world.claimAt, i);
    RunSplits(x, d, k);
    if way.Settling? || way.Deferring? {
      SilentKeepsPc(u, later, w);
    } else {
      FindCall(u, later, way, i, w, c, world);
      if way.Retrying? || way.Reporting? {
        AnsweredShifts(x, d, k, i, w, c, world);
      }
    }
    assert TookTo(x, d, k, claim, i, t.items[i].cell, u.items[i].cell);
    assert ClaimLeft(way, c, world.claimAt, t.items[i].cell, u.items[i].cell);
  }

  lemma FindCall(x: Sys, d: seq<Label>, way: Way, i: nat, w: nat, c: Config, world: World)
    requires GoodCells(x) && OwnEnabled(x, d, w) && OwnOf(d, w) == Rest(way, w, c, world)
    requires way in {Throwing, Unreported, Retrying, Reporting} && Suits(way, world.provider)
    requires PcOf(x, w).Calling? ==> PcOf(x, w).id == i
    ensures PcOf(x, w).Calling?
    ensures way.Retrying? || way.Reporting? ==> Answered(i, w, c, world, x, d, 0)
  {
    var more := match way case Throwing => [] case Unreported => [Crash(w)] case _ => [Report(w, c, world)];
    assert Rest(way, w, c, world) == [Call(w, c, world)] + more;
    var k := NextOwn(x, d, w, Call(w, c, world), more);
    var t := Steps.Run(x, d[..k], Do);
    CallTook(t, w, i, PcOf(x, w).attempt, ResultOf(c, world.provider));
    if way.Retrying? || way.Reporting? {
      FindReport(Steps.Run(x, d[..k + 1], Do), d[k + 1..], i, PcOf(x, w).attempt, w, c, world);
      AnsweredShifts(x, d, k, i, w, c, world);
    }
  }

  lemma FindReport(x: Sys, d: seq<Label>, i: nat, n: nat, w: nat, c: Config, world: World)
    requires GoodCells(x) && OwnEnabled(x, d, w) && OwnOf(d, w) == [Report(w, c, world)]
    requires PcOf(x, w) == Called(i, n, ResultOf(c, world.provider)) && !world.provider.Throws?
    ensures Answered(i, w, c, world, x, d, 0)
  {
    assert [Report(w, c, world)] + [] == [Report(w, c, world)];
    var k := NextOwn(x, d, w, Report(w, c, world), []);
    var t := Steps.Run(x, d[..k], Do);
    ReportTook(t, w, c, world, i, n);
    assert TookTo(x, d, k, ReportBack(w, c.workerId, CodeOf(world.provider), world.reportAt), i, t.items[i].cell,
                  Do(t, Report(w, c, world)).items[i].cell);
  }

  /** A dispatch that took its course since x is found in the whole run. */
  lemma DispatchTurned(w: nat, from: Snap, past: Past, x: Snap, past': Past, y: Snap, way: Way, i: nat, c: Config,
                       world: World, quiet: bool)
    requires Went(w, from, past, x) && Went(w, from, past', y) && GoodCells(x.s)
    requires Adds(past, Body(way, i, w, c, world), {}, quiet, past')
    requires Suits(way, world.provider) && EndsAt(way, i, PcOf(y.s, w))
    ensures Turned(way, i, w, c, world, from.s, past'.labels, |past.labels|)
  {
    if !way.Untouched? {
      var a, d := past.labels, past'.labels[|past.labels|..];
      assert a + d == past'.labels;
      Steps.Append(from.s, a, d, Do);
      OwnAppend(a, d, w);
      assert OwnOf(d, w) == (OwnOf(a, w) + OwnOf(d, w))[|past.own|..];
      assert Body(way, i, w, c, world) == (past.own + Body(way, i, w, c, world))[|past.own|..];
      EnabledSince(from.s, a, d, w);
      FindTurn(x.s, d, way, i, w, c, world);
      TurnedShifts(way, i, w, c, world, from.s, a, d);
    }
  }

  lemma EnabledSince(s: Sys, a: seq<Label>, b: seq<Label>, w: nat)
    requires OwnEnabled(s, a + b, w)
    ensures OwnEnabled(Steps.Run(s, a, Do), b, w)
  {
    forall k | 0 <= k < |b| && ByWorker(b[k], w)
      ensures Enabled(Steps.Run(Steps.Run(s, a, Do), b[..k], Do), b[k])
    {
      assert (a + b)[..|a| + k] == a + b[..k] && (a + b)[|a| + k] == b[k];
      Steps.Append(s, a, b[..k], Do);
    }
  }

  lemma TurnedShifts(way: Way, i: nat, w: nat, c: Config, world: World, start: Sys, a: seq<Label>, b: seq<Label>)
    requires Turned(way, i, w, c, world, Steps.Run(start, a, Do), b, 0) && !way.Untouched?
    ensures Turned(way, i, w, c, world, start, a + b, |a|)
  {
    var l := TryClaim(w, c.workerId, c.leaseMs, world.claimAt);
    var j: nat, before, after :|
      && TookTo(Steps.Run(start, a, Do), b, j, l, i, before, after) && ClaimLeft(way, c, world.claimAt, before, after);
    TookToShifts(start, a, b, j, l, i, before, after);
    if way.Retrying? || way.Reporting? {
      AnsweredShiftsBy(i, w, c, world, start, a, b);
    }
  }

  lemma AnsweredShiftsBy(i: nat, w: nat, c: Config, world: World, start: Sys, a: seq<Label>, b: seq<Label>)
    requires Answered(i, w, c, world, Steps.Run(start, a, Do), b, 0)
    ensures Answered(i, w, c, world, start, a + b, |a|)
  {
    var j: nat, code, before, after :|
      && TookTo(Steps.Run(start, a, Do), b, j, ReportBack(w, c.workerId, code, world.reportAt), i, before, after)
      && AnswerLeft(world.provider, c.retryBackoffMs, world.reportAt, before, after);
    TookToShifts(start, a, b, j, ReportBack(w, c.workerId, code, world.reportAt), i, before, after);
  }

  lemma StepKeepsLedger(s: Sys, l: Label, i: nat)
    requires i in s.items
    ensures i in Do(s, l).items && s.items[i].cell.ledger <= Do(s, l).items[i].cell.ledger
  {
  }

  lemma {:induction false} RunKeepsLedger(s: Sys, labels: seq<Label>, i: nat)
    requires i in s.items
    ensures var end := Steps.Run(s, labels, Do);
            i in end.items && s.items[i].cell.ledger <= end.items[i].cell.ledger
    decreases |labels|
  {
    if labels != [] {
      StepKeepsLedger(s, labels[0], i);
      RunKeepsLedger(Do(s, labels[0]), labels[1..], i);
    }
  }

  lemma TookToStays(start: Sys, labels: seq<Label>, k: nat, l: Label, i: nat, before: EA.Cell, after: EA.Cell)
    requires TookTo(start, labels, k, l, i, before, after)
    ensures var end := Steps.Run(start, labels, Do); i in end.items && after.ledger <= end.items[i].cell.ledger
  {
    var u := Steps.Run(start, labels[..k + 1], Do);
    Steps.Prefix(start, labels, k, Do);
    assert u == Do(Steps.Run(start, labels[..k], Do), l);
    RunSplits(start, labels, k);
    RunKeepsLedger(u, labels[k + 1..], i);
  }

  /** Whatever happens afterwards, the answer's entry stays in the ledger of the stored action. */
  lemma AnswerStays(i: nat, w: nat, c: Config, world: World, start: Sys, labels: seq<Label>, base: nat)
    requires Answered(i, w, c, world, start, labels, base)
    ensures var end := Steps.Run(start, labels, Do);
            i in end.items && exists before, after ::
              && AnswerLeft(world.provider, c.retryBackoffMs, world.reportAt, before, after)
              && after.ledger <= end.items[i].cell.ledger
  {
    var k: nat, code, before, after :|
      && TookTo(start, labels, k, ReportBack(w, c.workerId, code, world.reportAt), i, before, after)
      && AnswerLeft(world.provider, c.retryBackoffMs, world.reportAt, before, after);
    TookToStays(start, labels, k, ReportBack(w, c.workerId, code, world.reportAt), i, before, after);
  }

  // ── When nobody else acts ────────────────────────────────────────────────

  /** What the turn of a row leaves in its action. */
  ghost predicate QuietLeft(way: Way, c: Config, world: World, before: EA.Cell, after: EA.Cell) {
    match way
    case Untouched => after == before
    case Settling => IsSettled(before.action) && after == before
    case Deferring => !IsSettled(before.action) && EA.HeldBack(before.action, world.claimAt) && after == before
    case Throwing =>
      && world.provider.Throws?
      && !EA.HeldBack(before.action, world.claimAt)
      && EA.Started(before, after, c.workerId, c.leaseMs, world.claimAt)
    case Unreported =>
      && world.provider.Retryable? && c.retryBackoffMs <= 0
      && !EA.HeldBack(before.action, world.claimAt)
      && EA.Started(before, after, c.workerId, c.leaseMs, world.claimAt)
    case Retrying => world.provider.Retryable? && AttemptMade(c, world, before, after)
    case Reporting => (world.provider.Accepts? || world.provider.Refuses?) && AttemptMade(c, world, before, after)
  }

  /** The attempt was started, and n8n's answer reported. */
  ghost predicate AttemptMade(c: Config, world: World, before: EA.Cell, after: EA.Cell) {
    && !EA.HeldBack(before.action, world.claimAt)
    && exists started ::
         && EA.Started(before, started, c.workerId, c.leaseMs, world.claimAt)
         && AnswerLeft(world.provider, c.retryBackoffMs, world.reportAt, started, after)
  }

  ghost predicate OnlyChanges(x: Sys, y: Sys, i: nat) {
    && (forall j {:trigger j in y.items} :: j in x.items <==> j in y.items)
    && forall j {:trigger j in x.items} | j in x.items && j != i :: y.items[j] == x.items[j]
  }

  /** Where the worker stands before it reports. */
  function AfterCall(s: Sys, i: nat, w: nat, c: Config, world: World): Sys {
    Do(AfterClaimStep(s, i, w, c, world), Call(w, c, world))
  }

  function AfterClaimStep(s: Sys, i: nat, w: nat, c: Config, world: World): Sys {
    Do(Do(s, List(w, i)), TryClaim(w, c.workerId, c.leaseMs, world.claimAt))
  }

  lemma HeadAndTail(x: Sys, l: Label, rest: seq<Label>, w: nat)
    requires GoodCells(x) && OwnEnabled(x, [l] + rest, w) && ByWorker(l, w)
    ensures Enabled(x, l) && GoodCells(Do(x, l)) && OwnEnabled(Do(x, l), rest, w)
    ensures Steps.Run(x, [l] + rest, Do) == Steps.Run(Do(x, l), rest, Do)
  {
    EnabledTail(x, [l] + rest, w);
    assert ([l] + rest)[1..] == rest;
    StepKeepsGood(x, l);
  }

  /** A step on one action changes no other. */
  lemma StepOnlyChanges(x: Sys, l: Label, i: nat)
    requires match l
             case List(_, _) => true
             case TryClaim(w, _, _, _) => PcOf(x, w) == Listed(i)
             case CallProvider(w, _) => PcOf(x, w).Calling? && PcOf(x, w).id == i
             case ReportBack(w, _, _, _) => PcOf(x, w).Called? && PcOf(x, w).id == i
             case Crash(_) => true
             case _ => false
    ensures OnlyChanges(x, Do(x, l), i)
  {
  }

  lemma OnlyThen(x: Sys, y: Sys, z: Sys, i: nat)
    requires OnlyChanges(x, y, i) && OnlyChanges(y, z, i)
    ensures OnlyChanges(x, z, i)
  {
    forall j | j in x.items && j != i
      ensures z.items[j] == x.items[j]
    {
      assert j in y.items;
    }
  }

  lemma ListTook(x: Sys, w: nat, i: nat)
    requires Enabled(x, List(w, i))
    ensures var t := Do(x, List(w, i)); t.items == x.items && i in t.items && PcOf(t, w) == Listed(i)
  {
  }

  /** After the claim of a turn. */
  ghost predicate AtClaim(t: Sys, i: nat, w: nat, c: Config, world: World, before: EA.Cell, u: Sys) {
    && i in u.items && OnlyChanges(t, u, i)
    && if EA.HeldBack(before.action, world.claimAt)
       then u.items[i].cell == before && PcOf(u, w) == if IsSettled(before.action) then Consuming(i) else Idle
       else && EA.Started(before, u.items[i].cell, c.workerId, c.leaseMs, world.claimAt)
            && PcOf(u, w) == Calling(i, before.action.dispatchAttempts + 1)
  }

  lemma QuietClaim(x: Sys, rest: seq<Label>, i: nat, w: nat, c: Config, world: World) returns (u: Sys)
    requires GoodCells(x) && OwnEnabled(x, Head(i, w, c, world) + rest, w)
    ensures i in x.items && AtClaim(x, i, w, c, world, x.items[i].cell, u)
    ensures Steps.Run(x, Head(i, w, c, world) + rest, Do) == Steps.Run(u, rest, Do)
    ensures GoodCells(u) && OwnEnabled(u, rest, w)
    ensures u == AfterClaimStep(x, i, w, c, world)
  {
    var claim := TryClaim(w, c.workerId, c.leaseMs, world.claimAt);
    assert Head(i, w, c, world) + rest == [List(w, i)] + ([claim] + rest);
    HeadAndTail(x, List(w, i), [claim] + rest, w);
    ListTook(x, w, i);
    var t := Do(x, List(w, i));
    HeadAndTail(t, claim, rest, w);
    u := Do(t, claim);
    ClaimArrives(t, i, w, c, world, u);
    assert OnlyChanges(x, u, i);
  }

  lemma ClaimArrives(t: Sys, i: nat, w: nat, c: Config, world: World, u: Sys)
    requires PcOf(t, w) == Listed(i) && GoodCells(t) && c.workerId != "" && c.leaseMs > 0 && i in t.items
    requires u == Do(t, TryClaim(w, c.workerId, c.leaseMs, world.claimAt))
    ensures AtClaim(t, i, w, c, world, t.items[i].cell, u)
  {
    ClaimTook(t, w, c.workerId, c.leaseMs, world.claimAt, i);
    StepOnlyChanges(t, TryClaim(w, c.workerId, c.leaseMs, world.claimAt), i);
  }

  lemma QuietTurn(x: Sys, way: Way, i: nat, w: nat, c: Config, world: World, y: Sys)
    requires GoodCells(x) && OwnEnabled(x, Body(way, i, w, c, world), w) && !way.Untouched?
    requires y == Steps.Run(x, Body(way, i, w, c, world), Do)
    requires Suits(way, world.provider) && EndsAt(way, i, PcOf(y, w))
    requires way.Unreported? ==> !Enabled(AfterCall(x, i, w, c, world), Report(w, c, world))
    ensures i in x.items && OnlyChanges(x, y, i) && i in y.items
    ensures QuietLeft(way, c, world, x.items[i].cell, y.items[i].cell)
  {
    var u := QuietClaim(x, Rest(way, w, c, world), i, w, c, world);
    if !way.Settling? && !way.Deferring? {
      QuietCall(u, x.items[i].cell, way, i, w, c, world, y);
      OnlyThen(x, u, y, i);
    }
  }

  /** About to call n8n for an attempt that has been started. */
  predicate Prepared(x: Sys, before: EA.Cell, i: nat, w: nat, c: Config, world: World) {
    && i in x.items && PcOf(x, w).Calling? && PcOf(x, w).id == i && !EA.HeldBack(before.action, world.claimAt)
    && EA.Started(before, x.items[i].cell, c.workerId, c.leaseMs, world.claimAt)
  }

  lemma QuietCall(x: Sys, before: EA.Cell, way: Way, i: nat, w: nat, c: Config, world: World, y: Sys)
    requires GoodCells(x) && OwnEnabled(x, Rest(way, w, c, world), w) && y == Steps.Run(x, Rest(way, w, c, world), Do)
    requires way in {Throwing, Unreported, Retrying, Reporting} && Suits(way, world.provider) && i in x.items
    requires PcOf(x, w).Calling? ==> Prepared(x, before, i, w, c, world)
    requires way.Unreported? ==> !Enabled(Do(x, Call(w, c, world)), Report(w, c, world))
    ensures OnlyChanges(x, y, i) && i in y.items && QuietLeft(way, c, world, before, y.items[i].cell)
  {
    var l := Call(w, c, world);
    var more := match way case Throwing => [] case Unreported => [Crash(w)] case _ => [Report(w, c, world)];
    assert Rest(way, w, c, world) == [l] + more;
    HeadAndTail(x, l, more, w);
    CallTook(x, w, i, PcOf(x, w).attempt, ResultOf(c, world.provider));
    StepOnlyChanges(x, l, i);
    QuietEnd(x, Do(x, l), before, way, more, i, w, c, world, y);
    OnlyThen(x, Do(x, l), y, i);
  }

  lemma QuietEnd(x: Sys, u: Sys, before: EA.Cell, way: Way, more: seq<Label>, i: nat, w: nat, c: Config, world: World,
                 y: Sys)
    requires way in {Throwing, Unreported, Retrying, Reporting} && Suits(way, world.provider)
    requires Prepared(x, before, i, w, c, world) && i in u.items && u.items[i].cell == x.items[i].cell && GoodCells(u)
    requires !way.Throwing? ==> PcOf(u, w) == Called(i, PcOf(x, w).attempt, ResultOf(c, world.provider))
    requires more == match way case Throwing => [] case Unreported => [Crash(w)] case _ => [Report(w, c, world)]
    requires OwnEnabled(u, more, w) && y == Steps.Run(u, more, Do)
    requires way.Unreported? ==> !Enabled(u, Report(w, c, world))
    ensures OnlyChanges(u, y, i) && i in y.items && QuietLeft(way, c, world, before, y.items[i].cell)
  {
    if way.Unreported? {
      Steps.Single(u, Crash(w), Do);
      StepOnlyChanges(u, Crash(w), i);
      OnlyBackoffRefuses(u, i, PcOf(x, w).attempt, w, c, world);
    } else if !way.Throwing? {
      QuietReport(u, i, PcOf(x, w).attempt, w, c, world);
      Steps.Single(u, Report(w, c, world), Do);
      assert AttemptMade(c, world, before, y.items[i].cell);
    }
  }

  /** The holder's report is refused only for a retry that does not lie ahead. */
  lemma OnlyBackoffRefuses(u: Sys, i: nat, n: nat, w: nat, c: Config, world: World)
    requires PcOf(u, w) == Called(i, n, ResultOf(c, world.provider)) && !world.provider.Throws? && i in u.items
    requires u.items[i].cell.action.state.Dispatching?
    requires u.items[i].cell.action.dispatchLeaseOwner == Some(c.workerId)
    requires !Enabled(u, Report(w, c, world))
    ensures world.provider.Retryable? && c.retryBackoffMs <= 0
  {
  }

  lemma QuietReport(u: Sys, i: nat, n: nat, w: nat, c: Config, world: World)
    requires GoodCells(u) && OwnEnabled(u, [Report(w, c, world)], w) && !world.provider.Throws?
    requires PcOf(u, w) == Called(i, n, ResultOf(c, world.provider))
    ensures var y := Do(u, Report(w, c, world));
            && i in u.items && i in y.items && OnlyChanges(u, y, i)
            && AnswerLeft(world.provider, c.retryBackoffMs, world.reportAt, u.items[i].cell, y.items[i].cell)
  {
    EnabledTail(u, [Report(w, c, world)], w);
    ReportTook(u, w, c, world, i, n);
    StepOnlyChanges(u, Report(w, c, world), i);
  }
}
