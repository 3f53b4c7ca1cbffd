/**
 * Any number of workflow-callback workers over workflow runs and the outbox
 * (`processWithOrchestrator`, `processTenantProvisioningCompletion`,
 * apps/worker-workflow-callback/src/workflow-callback-worker.ts). Every await
 * is a step; requests are redelivered at will, to workers of either path.
 */
module WorkflowProtocol {
  import opened Text
  import opened Outbox
  import opened WorkflowRuns
  import Steps

  type Log = seq<Row<Body>>

  datatype Pc =
    | Idle
    | Begun(request: Request, path: Path)      // saw `requested`, before the swap to `in_progress`
    | Working(request: Request, path: Path)    // reporting progress, before the terminal event
    | Emitted(request: Request, path: Path, kind: Kind, code: Option<string>)  // before the terminal swap

  datatype Sys = Sys(runs: Runs, log: Log, now: int, workers: map<nat, Pc>)

  datatype Label =
    | Deliver(w: nat, request: Request, path: Path)
    | Begin(w: nat)
    | Report(w: nat, callbackId: string, step: string)
    | Conclude(w: nat, failed: bool, code: Option<string>)
    | Finish(w: nat)
    | Crash(w: nat)
    | Publish(row: nat)
    | Other(command: Command<Body>)
    | Tick(elapsed: nat)

  function PcOf(s: Sys, w: nat): Pc {
    if w in s.workers then s.workers[w] else Idle
  }

  function Goto(s: Sys, w: nat, pc: Pc): Sys {
    s.(workers := s.workers[w := pc])
  }

  function Enqueue(s: Sys, c: Command<Body>): Sys {
    s.(log := Enqueued(s.log, c, s.now))
  }

  /** `upsertRequested`; a terminal run ends the delivery there. */
  function DeliverStep(s: Sys, w: nat, r: Request, p: Path): Sys {
    if !PcOf(s, w).Idle? || !ValidRequest(r) then s
    else
      var runs := Upserted(s.runs, r.tenantId, r.workflowId, r.dedupeKey);
      var state := runs[RunKey(r)].state;
      Goto(s.(runs := runs), w,
           if IsTerminal(state) then Idle else if state.Requested? then Begun(r, p) else Working(r, p))
  }

  function BeginStep(s: Sys, w: nat): Sys {
    match PcOf(s, w)
    case Begun(r, p) => Goto(s.(runs := Swapped(s.runs, RunKey(r), Requested, InProgress, None)), w, Working(r, p))
    case _ => s
  }

  function ReportStep(s: Sys, w: nat, callbackId: string, step: string): Sys {
    match PcOf(s, w)
    case Working(r, _) => Enqueue(s, Command(ProgressId(r, callbackId, step), Progress(r)))
    case _ => s
  }

  function ConcludeStep(s: Sys, w: nat, failed: bool, code: Option<string>): Sys {
    match PcOf(s, w)
    case Working(r, p) =>
      var kind := if failed then FailedEvent else CompletedEvent;
      Goto(Enqueue(s, Command(TerminalId(r, p, kind), Terminal(r, p, kind))), w, Emitted(r, p, kind, code))
    case _ => s
  }

  function FinishStep(s: Sys, w: nat): Sys {
    match PcOf(s, w)
    case Emitted(r, p, kind, code) =>
      var to := if kind.FailedEvent? then Failed else Completed;
      Goto(s.(runs := Swapped(s.runs, RunKey(r), InProgress, to, if kind.FailedEvent? then code else None)), w, Idle)
    case _ => s
  }

  function Do(s: Sys, l: Label): Sys {
    match l
    case Deliver(w, r, p) => DeliverStep(s, w, r, p)
    case Begin(w) => BeginStep(s, w)
    case Report(w, callbackId, step) => ReportStep(s, w, callbackId, step)
    case Conclude(w, failed, code) => ConcludeStep(s, w, failed, code)
    case Finish(w) => FinishStep(s, w)
    case Crash(w) => Goto(s, w, Idle)
    case Publish(row) => if 1 <= row <= |s.log| then s.(log := Consumed(s.log, row, s.now)) else s
    case Other(command) => Enqueue(s, command)
    case Tick(elapsed) => s.(now := s.now + elapsed)
  }

  /** Other producers use other event types. */
  predicate Foreign(d: Identity) {
    && d.eventType != TypeName(ProgressEvent)
    && d.eventType != TypeName(CompletedEvent) && d.eventType != TypeName(FailedEvent)
  }

  /** Which requests are delivered at all; the results hold for any such class. */
  type Class = Request -> bool

  predicate Allowed(l: Label, ok: Class) {
    && (l.Other? ==> Foreign(l.command.identity) && l.command.payload.OtherBody?)
    && (l.Deliver? && ValidRequest(l.request) ==> ok(l.request))
  }

  function Run(s: Sys, labels: seq<Label>): Sys {
    Steps.Run(s, labels, Do)
  }

  const Start := Sys(map[], [], 0, map[])

  // ── Invariant ────────────────────────────────────────────────────────────

  predicate GoodRow(r: Row<Body>, ok: Class) {
    match r.payload
    case Terminal(q, p, k) => !k.ProgressEvent? && ok(q) && r.identity == TerminalId(q, p, k)
    case Progress(_) => r.identity.eventType == TypeName(ProgressEvent)
    case OtherBody => Foreign(r.identity)
  }

  ghost predicate GoodLog(log: Log, ok: Class) {
    WellFormed(log) && forall i | 0 <= i < |log| :: GoodRow(log[i], ok)
  }

  /** The outbox has this terminal event of the run. */
  ghost predicate Evidence(log: Log, k: string, kind: Kind, ok: Class) {
    exists r, p :: ok(r) && RunKey(r) == k && Has(log, TerminalId(r, p, kind))
  }

  ghost predicate Backed(log: Log, k: string, state: State, ok: Class) {
    match state
    case Completed => Evidence(log, k, CompletedEvent, ok)
    case Failed => Evidence(log, k, FailedEvent, ok)
    case _ => true
  }

  predicate GoodPc(pc: Pc, log: Log, ok: Class) {
    match pc
    case Idle => true
    case Begun(r, _) => ok(r)
    case Working(r, _) => ok(r)
    case Emitted(r, p, k, _) => ok(r) && !k.ProgressEvent? && Has(log, TerminalId(r, p, k))
  }

  ghost predicate Inv(s: Sys, ok: Class) {
    match s
    case Sys(runs, log, _, workers) =>
      && GoodLog(log, ok)
      && (forall k {:trigger k in runs} | k in runs :: Backed(log, k, runs[k].state, ok))
      && (forall w {:trigger w in workers} | w in workers :: GoodPc(workers[w], log, ok))
  }

  // ── Frame lemmas ─────────────────────────────────────────────────────────

  lemma BackedKeeps(log: Log, log': Log, k: string, state: State, ok: Class)
    requires Backed(log, k, state, ok) && KeepsIdentities(log, log')
    ensures Backed(log', k, state, ok)
  {
  }

  lemma LogKeepsInv(s: Sys, log': Log, ok: Class)
    requires Inv(s, ok) && GoodLog(log', ok) && KeepsIdentities(s.log, log')
    ensures Inv(s.(log := log'), ok)
  {
    forall k | k in s.runs
      ensures Backed(log', k, s.runs[k].state, ok)
    {
      BackedKeeps(s.log, log', k, s.runs[k].state, ok);
    }
  }

  lemma EnqueueKeepsInv(s: Sys, c: Command<Body>, ok: Class)
    requires Inv(s, ok) && GoodRow(Row(|s.log| + 1, c.identity, c.payload, s.now, None), ok)
    ensures Inv(Enqueue(s, c), ok) && Has(Enqueue(s, c).log, c.identity)
  {
    var log' := Enqueued(s.log, c, s.now);
    if !Has(s.log, c.identity) {
      FirstEnqueueIsStored(s.log, c, s.now);
      assert log'[|s.log|].identity == c.identity;
    }
    SameIdentitiesKeep(s.log, log');
    LogKeepsInv(s, log', ok);
  }

  lemma GotoKeepsInv(s: Sys, w: nat, pc: Pc, ok: Class)
    requires Inv(s, ok) && GoodPc(pc, s.log, ok)
    ensures Inv(Goto(s, w, pc), ok)
  {
  }

  lemma SwapKeepsInv(s: Sys, k: string, from: State, to: State, code: Option<string>, ok: Class)
    requires Inv(s, ok) && Backed(s.log, k, to, ok)
    ensures Inv(s.(runs := Swapped(s.runs, k, from, to, code)), ok)
  {
  }

  // ── Each step keeps the invariant ────────────────────────────────────────

  lemma DeliverKeepsInv(s: Sys, w: nat, r: Request, p: Path, ok: Class)
    requires Inv(s, ok) && (ValidRequest(r) ==> ok(r))
    ensures Inv(DeliverStep(s, w, r, p), ok)
  {
    if PcOf(s, w).Idle? && ValidRequest(r) {
      var s1 := s.(runs := Upserted(s.runs, r.tenantId, r.workflowId, r.dedupeKey));
      assert Inv(s1, ok);
      var state := s1.runs[RunKey(r)].state;
      GotoKeepsInv(s1, w, if IsTerminal(state) then Idle else if state.Requested? then Begun(r, p) else Working(r, p),
                   ok);
    }
  }

  lemma ConcludeKeepsInv(s: Sys, w: nat, failed: bool, code: Option<string>, ok: Class)
    requires Inv(s, ok)
    ensures Inv(ConcludeStep(s, w, failed, code), ok)
  {
    if PcOf(s, w).Working? {
      var Working(r, p) := PcOf(s, w);
      var kind := if failed then FailedEvent else CompletedEvent;
      var c := Command(TerminalId(r, p, kind), Terminal(r, p, kind));
      assert GoodPc(PcOf(s, w), s.log, ok);
      EnqueueKeepsInv(s, c, ok);
      GotoKeepsInv(Enqueue(s, c), w, Emitted(r, p, kind, code), ok);
    }
  }

  lemma FinishKeepsInv(s: Sys, w: nat, ok: Class)
    requires Inv(s, ok)
    ensures Inv(FinishStep(s, w), ok)
  {
    if PcOf(s, w).Emitted? {
      var Emitted(r, p, kind, code) := PcOf(s, w);
      assert GoodPc(PcOf(s, w), s.log, ok);
      var to := if kind.FailedEvent? then Failed else Completed;
      assert Evidence(s.log, RunKey(r), kind, ok);
      SwapKeepsInv(s, RunKey(r), InProgress, to, if kind.FailedEvent? then code else None, ok);
      GotoKeepsInv(s.(runs := Swapped(s.runs, RunKey(r), InProgress, to, if kind.FailedEvent? then code else None)), w,
                   Idle, ok);
    }
  }

  lemma BeginKeepsInv(s: Sys, w: nat, ok: Class)
    requires Inv(s, ok)
    ensures Inv(BeginStep(s, w), ok)
  {
    if PcOf(s, w).Begun? {
      var Begun(r, p) := PcOf(s, w);
      assert GoodPc(PcOf(s, w), s.log, ok);
      SwapKeepsInv(s, RunKey(r), Requested, InProgress, None, ok);
      GotoKeepsInv(s.(runs := Swapped(s.runs, RunKey(r), Requested, InProgress, None)), w, Working(r, p), ok);
    }
  }

  lemma PublishKeepsInv(s: Sys, row: nat, ok: Class)
    requires Inv(s, ok) && 1 <= row <= |s.log|
    ensures Inv(s.(log := Consumed(s.log, row, s.now)), ok)
  {
    var log' := Consumed(s.log, row, s.now);
    ConsumeKeepsWellFormed(s.log, row, s.now);
    SameIdentitiesKeep(s.log, log');
    assert forall i | 0 <= i < |log'| :: GoodRow(s.log[i], ok) ==> GoodRow(log'[i], ok);
    LogKeepsInv(s, log', ok);
  }

  lemma DoKeepsInv(s: Sys, l: Label, ok: Class)
    requires Inv(s, ok) && Allowed(l, ok)
    ensures Inv(Do(s, l), ok)
  {
    match l
    case Deliver(w, r, p) => DeliverKeepsInv(s, w, r, p, ok);
    case Begin(w) => BeginKeepsInv(s, w, ok);
    case Report(w, callbackId, step) =>
      if PcOf(s, w).Working? {
        EnqueueKeepsInv(s, Command(ProgressId(PcOf(s, w).request, callbackId, step), Progress(PcOf(s, w).request)), ok);
      }
    case Conclude(w, failed, code) => ConcludeKeepsInv(s, w, failed, code, ok);
    case Finish(w) => FinishKeepsInv(s, w, ok);
    case Crash(w) => GotoKeepsInv(s, w, Idle, ok);
    case Publish(row) =>
      if 1 <= row <= |s.log| {
        PublishKeepsInv(s, row, ok);
      }
    case Other(command) => EnqueueKeepsInv(s, command, ok);
    case Tick(_) =>
  }

  lemma {:induction false} RunKeepsInv(s: Sys, labels: seq<Label>, ok: Class)
    requires Inv(s, ok) && forall l | l in labels :: Allowed(l, ok)
    ensures Inv(Run(s, labels), ok)
    decreases |labels|
  {
    if labels != [] {
      DoKeepsInv(s, labels[0], ok);
      RunKeepsInv(Do(s, labels[0]), labels[1..], ok);
    }
  }

  // ── Main results ─────────────────────────────────────────────────────────

  /**
   * In every run, a completed (failed) workflow has its completed (failed)
   * event in the outbox already, under the key of a request for that workflow.
   */
  lemma TerminalRunHasItsEvent(labels: seq<Label>, k: string, ok: Class)
    requires forall l | l in labels :: Allowed(l, ok)
    requires k in Run(Start, labels).runs
    ensures Run(Start, labels).runs[k].state.Completed? ==> Evidence(Run(Start, labels).log, k, CompletedEvent, ok)
    ensures Run(Start, labels).runs[k].state.Failed? ==> Evidence(Run(Start, labels).log, k, FailedEvent, ok)
  {
    RunKeepsInv(Start, labels, ok);
    assert Backed(Run(Start, labels).log, k, Run(Start, labels).runs[k].state, ok);
  }

  // ── After termination ────────────────────────────────────────────────────

  /** The worker is at work on the run. */
  predicate Involved(pc: Pc, k: string) {
    match pc
    case Idle => false
    case Begun(r, _) => RunKey(r) == k
    case Working(r, _) => RunKey(r) == k
    case Emitted(r, _, _, _) => RunKey(r) == k
  }

  predicate About(b: Body, k: string) {
    match b
    case Terminal(r, _, _) => RunKey(r) == k
    case Progress(r) => RunKey(r) == k
    case OtherBody => false
  }

  predicate IsDone(s: Sys, k: string) {
    k in s.runs && IsTerminal(s.runs[k].state)
  }

  /** The workers whose delivery of the run is still under way. */
  function Late(s: Sys, k: string): set<nat> {
    set w | w in s.workers && Involved(s.workers[w], k)
  }

  /** One of these workers, still at work on the run, reports progress or a verdict. */
  predicate Speaks(s: Sys, l: Label, k: string, late: set<nat>) {
    (l.Report? || l.Conclude?) && l.w in late && PcOf(s, l.w).Working? && RunKey(PcOf(s, l.w).request) == k
  }

  predicate SamePayloads(log: Log, log': Log) {
    |log| <= |log'| && forall i | 0 <= i < |log| :: log'[i].payload == log[i].payload
  }

  lemma StepAfterTermination(s: Sys, l: Label, k: string, ok: Class)
    requires IsDone(s, k) && Allowed(l, ok)
    ensures var s' := Do(s, l);
            && IsDone(s', k) && s'.runs[k] == s.runs[k] && Late(s', k) <= Late(s, k)
            && SamePayloads(s.log, s'.log)
            && forall i | |s.log| <= i < |s'.log| && About(s'.log[i].payload, k) ::
                 i == |s.log| && |s'.log| == i + 1 && Speaks(s, l, k, Late(s, k))
  {
  }

  /** The row at position i is what a late worker said at step j. */
  predicate SaidLate(s: Sys, labels: seq<Label>, j: nat, i: nat, k: string)
    requires j < |labels|
  {
    && Speaks(Run(s, labels[..j]), labels[j], k, Late(s, k))
    && |Run(s, labels[..j]).log| == i && |Run(s, labels[..j + 1]).log| == i + 1
  }

  /**
   * Terminal is for ever, with any number of deliveries still under way. From
   * any state in which the run is terminal: it keeps its one terminal state, no
   * delivery that begins later becomes involved, and every new row about the
   * run is a report or a verdict of a worker whose delivery began before.
   */
  lemma {:induction false} OnlyLateDeliveriesSpeak(s: Sys, labels: seq<Label>, k: string, ok: Class)
    requires IsDone(s, k) && forall l | l in labels :: Allowed(l, ok)
    ensures var s' := Run(s, labels);
            && IsDone(s', k) && s'.runs[k] == s.runs[k] && Late(s', k) <= Late(s, k) && SamePayloads(s.log, s'.log)
            && forall i | |s.log| <= i < |s'.log| && About(s'.log[i].payload, k) ::
                 exists j | 0 <= j < |labels| :: SaidLate(s, labels, j, i, k)
    decreases |labels|
  {
    if labels != [] {
      var s1, rest, s' := Do(s, labels[0]), labels[1..], Run(s, labels);
      StepAfterTermination(s, labels[0], k, ok);
      OnlyLateDeliveriesSpeak(s1, rest, k, ok);
      forall i | |s.log| <= i < |s'.log| && About(s'.log[i].payload, k)
        ensures exists j | 0 <= j < |labels| :: SaidLate(s, labels, j, i, k)
      {
        if i < |s1.log| {
          FirstSaidLate(s, labels, i, k);
        } else {
          var j :| 0 <= j < |rest| && SaidLate(s1, rest, j, i, k);
          LaterSaidLate(s, labels, j, i, k);
        }
      }
    }
  }

  lemma FirstSaidLate(s: Sys, labels: seq<Label>, i: nat, k: string)
    requires labels != [] && Speaks(s, labels[0], k, Late(s, k))
    requires |s.log| == i && |Do(s, labels[0]).log| == i + 1
    ensures SaidLate(s, labels, 0, i, k)
  {
    Steps.Prefix(s, labels, 0, Do);
    assert labels[..0] == [];
  }

  lemma LaterSaidLate(s: Sys, labels: seq<Label>, j: nat, i: nat, k: string)
    requires labels != [] && j < |labels[1..]| && SaidLate(Do(s, labels[0]), labels[1..], j, i, k)
    requires Late(Do(s, labels[0]), k) <= Late(s, k)
    ensures SaidLate(s, labels, j + 1, i, k)
  {
    assert labels[..j + 1][1..] == labels[1..][..j];
    assert labels[..j + 2][1..] == labels[1..][..j + 1];
  }

  /** Once every delivery that began before the end is over, nothing more is said about the run. */
  lemma DeliveriesAfterTerminationAreSilent(s: Sys, labels: seq<Label>, k: string, ok: Class)
    requires IsDone(s, k) && Late(s, k) == {} && forall l | l in labels :: Allowed(l, ok)
    ensures var s' := Run(s, labels);
            && IsDone(s', k) && s'.runs[k] == s.runs[k] && Late(s', k) == {}
            && forall i | |s.log| <= i < |s'.log| :: !About(s'.log[i].payload, k)
  {
    OnlyLateDeliveriesSpeak(s, labels, k, ok);
  }
}
