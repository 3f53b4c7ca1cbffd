/**
 * The callback worker as the source writes it (`processWithOrchestrator`,
 * `processTenantProvisioningCompletion`,
 * apps/worker-workflow-callback/src/workflow-callback-worker.ts), over the two
 * repositories. At every await other workers, producers and the publisher may
 * act and time may pass. Every execution, faults included, is proved to be a
 * run of `WorkflowProtocol`, so results about runs are results about this code.
 */
module WorkflowWorker {
  import opened Text
  import opened Outbox
  import opened WorkflowRuns
  import opened WorkflowProtocol
  import Steps

  /** Where the worker awaits a repository call. */
  datatype Await = AtUpsert | AtBegin | AtReport(i: nat) | AtEmit | AtFinish

  /**
   * What the provisioning steps or the durable executor report, which
   * repository calls throw, and what everyone else does before each of them.
   */
  datatype World = World(
    history: seq<Step>,
    verdict: Verdict,
    upsert: bool,
    begin: bool,
    emit: bool,
    finish: bool,
    others: Await -> seq<Label>)

  datatype Step = Step(callbackId: string, step: string, stored: bool)

  /** Neither outcome yet: the executor is still running, or asking it threw. */
  datatype Verdict = Succeeded | Broken(code: Option<string>) | Undecided

  function FailureCode(p: Path, world: World): Option<string> {
    if p.Direct? then Some("PROVISIONING_ERROR") else if world.verdict.Broken? then world.verdict.code else None
  }

  /**
   * A delivery ends early at a run that is terminal already: with the stored
   * run's state, or with whatever the durable executor says.
   */
  datatype Outcome = Cached(state: State) | Relayed(verdict: Verdict) | Concluded(state: State) | Threw

  /** Nobody else acts. */
  ghost predicate IsQuiet(world: World) {
    forall a: Await :: world.others(a) == []
  }

  /** Storing every history event succeeds. */
  predicate StoresAll(world: World) {
    forall k | 0 <= k < |world.history| :: world.history[k].stored
  }

  /** Work that does not come to a conclusion: only the durable executor can leave that open. */
  predicate LeftOpen(p: Path, world: World) {
    p.Restate? && (!StoresAll(world) || world.verdict.Undecided?)
  }

  // ── Whose step it is ─────────────────────────────────────────────────────

  predicate ByWorker(l: Label, w: nat) {
    match l
    case Deliver(v, _, _) => v == w
    case Begin(v) => v == w
    case Report(v, _, _) => v == w
    case Conclude(v, _, _) => v == w
    case Finish(v) => v == w
    case Crash(v) => v == w
    case _ => false
  }

  /** A step of an execution: the worker's own deliveries are of its one request. */
  predicate InExecution(l: Label, w: nat, r: Request, ok: Class) {
    Allowed(l, ok) && (l.Deliver? && l.w == w ==> l.request == r)
  }

  function Execution(w: nat, r: Request, ok: Class): Label -> bool {
    (l: Label) => InExecution(l, w, r, ok)
  }

  ghost predicate Reached(start: Sys, labels: seq<Label>, s: Sys, w: nat, r: Request, ok: Class) {
    Steps.Reached(start, labels, s, Do, Execution(w, r, ok))
  }

  lemma Extend(start: Sys, labels: seq<Label>, s: Sys, l: Label, w: nat, r: Request, ok: Class)
    requires Reached(start, labels, s, w, r, ok) && InExecution(l, w, r, ok)
    ensures Reached(start, labels + [l], Do(s, l), w, r, ok)
  {
    Steps.Extend(start, labels, s, l, Do, Execution(w, r, ok));
  }

  lemma Join(s0: Sys, first: seq<Label>, s1: Sys, second: seq<Label>, s2: Sys, w: nat, r: Request, ok: Class)
    requires Reached(s0, first, s1, w, r, ok) && Reached(s1, second, s2, w, r, ok)
    ensures Reached(s0, first + second, s2, w, r, ok)
  {
    Steps.Join(s0, first, s1, second, s2, Do, Execution(w, r, ok));
  }

  /** Nobody else acts in this worker's name, and what they do is allowed. */
  ghost predicate OthersOnly(world: World, w: nat, ok: Class) {
    forall a: Await, l | l in world.others(a) :: Allowed(l, ok) && !ByWorker(l, w)
  }

  /** Others leave a worker where it stands. */
  lemma OthersLeaveMe(s: Sys, l: Label, w: nat)
    requires !ByWorker(l, w)
    ensures PcOf(Do(s, l), w) == PcOf(s, w)
  {
  }

  /** No step loses a row. */
  lemma DoKeepsIdentities(s: Sys, l: Label)
    ensures KeepsIdentities(s.log, Do(s, l).log)
  {
    SameIdentitiesKeep(s.log, Do(s, l).log);
  }

  lemma EnqueueHas(s: Sys, c: Command<Body>)
    ensures Has(Enqueue(s, c).log, c.identity)
  {
    var log' := Enqueued(s.log, c, s.now);
    if !Has(s.log, c.identity) {
      HasByPosition(log', c.identity, |s.log|);
    }
  }

  /** The first n history events were stored: no call for them threw, and their rows are in the outbox. */
  ghost predicate HistoryStored(world: World, n: nat, r: Request, log: Log)
    requires n <= |world.history|
  {
    forall k | 0 <= k < n ::
      world.history[k].stored && Has(log, ProgressId(r, world.history[k].callbackId, world.history[k].step))
  }

  lemma HistoryStays(world: World, n: nat, r: Request, log: Log, log': Log)
    requires n <= |world.history| && HistoryStored(world, n, r, log) && KeepsIdentities(log, log')
    ensures HistoryStored(world, n, r, log')
  {
  }

  /** Everything succeeded, and the outbox has every progress event and the completed event. */
  ghost predicate AllSucceeded(world: World, r: Request, p: Path, log: Log) {
    && world.verdict.Succeeded? && HistoryStored(world, |world.history|, r, log)
    && Has(log, TerminalId(r, p, CompletedEvent))
  }

  /**
   * The executor reported a failure, or on the direct path a provisioning step
   * or the storing of a report failed; and the outbox has the failed event.
   */
  ghost predicate HasFailed(world: World, r: Request, p: Path, log: Log) {
    && (match p
        case Restate => world.verdict.Broken?
        case Direct => !world.verdict.Succeeded? || exists k :: 0 <= k < |world.history| && !world.history[k].stored)
    && Has(log, TerminalId(r, p, FailedEvent))
  }

  /** No other run has changed, and this one has come to this state. */
  ghost predicate RunCame(before: Runs, after: Runs, k: string, state: State) {
    && k in after && after[k].state == state
    && (forall j {:trigger j in after} :: j in after <==> j in before || j == k)
    && forall j {:trigger j in before} | j in before && j != k :: after[j] == before[j]
  }

  /** What the upsert of a run that is terminal already comes to. */
  predicate EndsEarly(outcome: Outcome, p: Path, world: World, runs: Runs, k: string) {
    match outcome
    case Cached(state) => p.Direct? && k in runs && IsTerminal(state) && runs[k].state == state
    case Relayed(verdict) => p.Restate? && k in runs && IsTerminal(runs[k].state) && verdict == world.verdict
    case Concluded(_) => false
    case Threw => true
  }

  lemma ConcludeIs(s: Sys, w: nat, failed: bool, code: Option<string>, c: Command<Body>)
    requires PcOf(s, w).Working?
    requires var Working(r, p) := PcOf(s, w);
             var kind := if failed then FailedEvent else CompletedEvent;
             c == Command(TerminalId(r, p, kind), Terminal(r, p, kind))
    ensures var Working(r, p) := PcOf(s, w);
            Do(s, Conclude(w, failed, code))
            == Goto(Enqueue(s, c), w, Emitted(r, p, if failed then FailedEvent else CompletedEvent, code))
  {
  }

  class WorkflowCallbackWorker {
    const id: nat
    const outbox: InMemoryOutboxRepository<Body>
    const runs: InMemoryWorkflowRunRepository

    ghost predicate Valid()
      reads outbox, runs
    {
      outbox.Valid() && runs.Valid()
    }

    /** The repositories are in this state of the protocol. */
    ghost predicate Holds(s: Sys)
      reads outbox, runs
    {
      Valid() && s.runs == runs.runs && s.log == outbox.Log()
    }

    constructor (id: nat, outbox: InMemoryOutboxRepository<Body>, runs: InMemoryWorkflowRunRepository)
      ensures this.id == id && this.outbox == outbox && this.runs == runs
    {
      this.id, this.outbox, this.runs := id, outbox, runs;
    }

    // ── One repository call, one step of the protocol, whoever makes it ────

    method UpsertRun(w: nat, r: Request, p: Path, s: Sys) returns (s': Sys)
      requires Holds(s) && PcOf(s, w).Idle? && ValidRequest(r)
      modifies runs
      ensures Holds(s') && s' == Do(s, Deliver(w, r, p))
    {
      var found := runs.UpsertRequested(r.tenantId, r.workflowId, r.dedupeKey);
      s' := DeliverStep(s, w, r, p);
    }

    method Swap(w: nat, s: Sys, ghost l: Label) returns (s': Sys)
      requires Holds(s)
      requires (l == Begin(w) && PcOf(s, w).Begun?) || (l == Finish(w) && PcOf(s, w).Emitted?)
      modifies runs
      ensures Holds(s') && s' == Do(s, l)
    {
      match PcOf(s, w) {
        case Begun(r, _) =>
          var swapped := runs.TransitionState(r.tenantId, r.workflowId, Requested, InProgress, None);
          s' := BeginStep(s, w);
        case Emitted(r, _, kind, code) =>
          var failed := kind.FailedEvent?;
          var swapped := runs.TransitionState(r.tenantId, r.workflowId, InProgress,
                                              if failed then Failed else Completed,
                                              if failed then code else None);
          s' := FinishStep(s, w);
        case _ =>
          s' := s;
      }
    }

    /** False when validation throws. */
    method Store(c: Command<Body>, s: Sys) returns (ok: bool, s': Sys)
      requires Holds(s)
      modifies outbox
      ensures Holds(s') && s' == (if ok then Enqueue(s, c) else s) && KeepsIdentities(s.log, s'.log)
      ensures ok <==> ValidIdentity(c.identity)
    {
      SameIdentitiesKeep(s.log, Enqueue(s, c).log);
      var stored := outbox.Enqueue(c, s.now);
      ok := stored.Ok?;
      s' := if ok then Enqueue(s, c) else s;
    }

    method StoreProgress(w: nat, callbackId: string, step: string, s: Sys) returns (ok: bool, s': Sys)
      requires Holds(s) && PcOf(s, w).Working?
      modifies outbox
      ensures Holds(s') && s' == if ok then Do(s, Report(w, callbackId, step)) else s
      ensures ok ==> Has(s'.log, ProgressId(PcOf(s, w).request, callbackId, step))
      ensures ValidRequest(PcOf(s, w).request) ==> ok
    {
      var r := PcOf(s, w).request;
      if ValidRequest(r) {
        EventsAreAccepted(r, Direct, ProgressEvent, callbackId, step);
      }
      EnqueueHas(s, Command(ProgressId(r, callbackId, step), Progress(r)));
      ok, s' := Store(Command(ProgressId(r, callbackId, step), Progress(r)), s);
    }

    method StoreTerminal(w: nat, failed: bool, code: Option<string>, s: Sys) returns (ok: bool, s': Sys)
      requires Holds(s) && PcOf(s, w).Working?
      modifies outbox
      ensures Holds(s') && s' == (if ok then Do(s, Conclude(w, failed, code)) else s)
      ensures KeepsIdentities(s.log, s'.log)
      ensures var Working(r, p) := PcOf(s, w);
              var kind := if failed then FailedEvent else CompletedEvent;
              ok ==> Has(s'.log, TerminalId(r, p, kind)) && PcOf(s', w) == Emitted(r, p, kind, code)
      ensures ValidRequest(PcOf(s, w).request) ==> ok
    {
      if ValidRequest(PcOf(s, w).request) {
        EventsAreAccepted(PcOf(s, w).request, PcOf(s, w).path, if failed then FailedEvent else CompletedEvent, "", "");
      }
      var Working(r, p) := PcOf(s, w);
      var kind := if failed then FailedEvent else CompletedEvent;
      var c := Command(TerminalId(r, p, kind), Terminal(r, p, kind));
      ConcludeIs(s, w, failed, code, c);
      EnqueueHas(s, c);
      ok, s' := Store(c, s);
      if ok {
        s' := Goto(s', w, Emitted(r, p, kind, code));
      }
    }

    method Consume(row: nat, s: Sys) returns (s': Sys)
      requires Holds(s) && 1 <= row <= |s.log|
      modifies outbox
      ensures Holds(s') && s' == Do(s, Publish(row))
    {
      var done := outbox.MarkConsumed(s.log[row - 1].identity.tenantId, row, s.now);
      s' := s.(log := Consumed(s.log, row, s.now));
    }

    /** Any step of anyone, as repository calls; false when it cannot be made. */
    method Perform(l: Label, s: Sys) returns (done: bool, s': Sys)
      requires Holds(s)
      modifies outbox, runs
      ensures Holds(s') && s' == if done then Do(s, l) else s
    {
      done, s' := true, s;
      match l {
        case Deliver(w, r, p) =>
          if PcOf(s, w).Idle? && ValidRequest(r) {
            s' := UpsertRun(w, r, p, s);
          }
        case Begin(w) =>
          if PcOf(s, w).Begun? {
            s' := Swap(w, s, l);
          }
        case Report(w, callbackId, step) =>
          if PcOf(s, w).Working? {
            done, s' := StoreProgress(w, callbackId, step, s);
          }
        case Conclude(w, failed, code) =>
          if PcOf(s, w).Working? {
            done, s' := StoreTerminal(w, failed, code, s);
          }
        case Finish(w) =>
          if PcOf(s, w).Emitted? {
            s' := Swap(w, s, l);
          }
        case Crash(w) =>
          s' := Goto(s, w, Idle);
        case Publish(row) =>
          if 1 <= row <= |s.log| {
            s' := Consume(row, s);
          }
        case Other(command) =>
          done, s' := Store(command, s);
        case Tick(elapsed) =>
          s' := s.(now := s.now + elapsed);
      }
    }

    /** What everyone else does while this worker waits. */
    method Interfere(others: seq<Label>, s: Sys, ghost r: Request, ghost ok: Class)
      returns (ghost labels: seq<Label>, s': Sys)
      requires Holds(s) && forall l | l in others :: Allowed(l, ok) && !ByWorker(l, id)
      modifies outbox, runs
      ensures Holds(s') && PcOf(s', id) == PcOf(s, id) && Reached(s, labels, s', id, r, ok)
      ensures KeepsIdentities(s.log, s'.log) && (others == [] ==> s' == s)
    {
      labels, s' := [], s;
      var i := 0;
      while i < |others|
        invariant i <= |others| && Holds(s') && PcOf(s', id) == PcOf(s, id) && Reached(s, labels, s', id, r, ok)
        invariant KeepsIdentities(s.log, s'.log) && (others == [] ==> s' == s)
      {
        DoKeepsIdentities(s', others[i]);
        assert others[i] in others;
        Extend(s, labels, s', others[i], id, r, ok);
        OthersLeaveMe(s', others[i], id);
        var done;
        done, s' := Perform(others[i], s');
        if done {
          labels := labels + [others[i]];
        }
        i := i + 1;
      }
    }

    /** A throw that leaves the worker is the protocol's crash. */
    method Throw(start: Sys, ghost labels: seq<Label>, s: Sys, ghost r: Request, ghost ok: Class)
      returns (ghost more: seq<Label>, s': Sys)
      requires Holds(s) && Reached(start, labels, s, id, r, ok)
      ensures Holds(s') && PcOf(s', id).Idle? && Reached(start, more, s', id, r, ok) && s'.runs == s.runs
    {
      Extend(start, labels, s, Crash(id), id, r, ok);
      more, s' := labels + [Crash(id)], Goto(s, id, Idle);
    }

    /** Others act, then this worker is still where it was. */
    method Await(start: Sys, ghost labels: seq<Label>, s: Sys, others: seq<Label>, ghost r: Request, ghost ok: Class)
      returns (ghost more: seq<Label>, s': Sys)
      requires Holds(s) && Reached(start, labels, s, id, r, ok)
      requires forall l | l in others :: Allowed(l, ok) && !ByWorker(l, id)
      modifies outbox, runs
      ensures Holds(s') && PcOf(s', id) == PcOf(s, id) && Reached(start, more, s', id, r, ok)
      ensures KeepsIdentities(s.log, s'.log) && (others == [] ==> s' == s)
    {
      ghost var theirs;
      theirs, s' := Interfere(others, s, r, ok);
      Join(start, labels, s, theirs, s', id, r, ok);
      more := labels + theirs;
    }

    // ── The paths ──────────────────────────────────────────────────────────

    /** The upsert; a run that is terminal by then ends the delivery. */
    method FirstCall(r: Request, p: Path, world: World, s: Sys, ghost ok: Class)
      returns (ended: Option<Outcome>, ghost labels: seq<Label>, s': Sys)
      requires Holds(s) && PcOf(s, id).Idle? && ValidRequest(r) && ok(r) && OthersOnly(world, id, ok)
      modifies outbox, runs
      ensures Holds(s') && Reached(s, labels, s', id, r, ok)
      ensures ended.Some? ==> PcOf(s', id).Idle? && EndsEarly(ended.value, p, world, s'.runs, RunKey(r))
      ensures ended == Some(Threw) <==> !world.upsert
      ensures ended.None? ==> OpensRun(s', r, p)
      ensures IsQuiet(world) && world.upsert ==> s' == Do(s, Deliver(id, r, p))
    {
      labels, s' := Await(s, [], s, world.others(AtUpsert), r, ok);
      if !world.upsert {
        return Some(Threw), labels, s';
      }
      Extend(s, labels, s', Deliver(id, r, p), id, r, ok);
      s' := UpsertRun(id, r, p, s');
      labels := labels + [Deliver(id, r, p)];
      var state := s'.runs[RunKey(r)].state;
      ended := if !IsTerminal(state) then None
               else if p.Direct? then Some(Cached(state)) else Some(Relayed(world.verdict));
    }

    /** The run is there and not terminal; the worker is about to move it on, or at work. */
    predicate OpensRun(s: Sys, r: Request, p: Path) {
      && RunKey(r) in s.runs && !IsTerminal(s.runs[RunKey(r)].state)
      && PcOf(s, id) == if s.runs[RunKey(r)].state.Requested? then Begun(r, p) else Working(r, p)
    }

    /** Left alone, the first call meets a terminal run exactly where there was one, and otherwise the run is open. */
    lemma QuietDelivery(s: Sys, r: Request, p: Path)
      requires PcOf(s, id).Idle? && ValidRequest(r)
      ensures var s', k := Do(s, Deliver(id, r, p)), RunKey(r);
              && (k in s.runs && IsTerminal(s.runs[k].state) ==> s'.runs == s.runs)
              && (!(k in s.runs && IsTerminal(s.runs[k].state)) ==>
                    && k in s'.runs && !IsTerminal(s'.runs[k].state)
                    && RunCame(s.runs, s'.runs, k, s'.runs[k].state))
    {
    }

    lemma QuietBeginning(s: Sys, r: Request, p: Path)
      requires OpensRun(s, r, p) && PcOf(s, id).Begun?
      ensures RunCame(s.runs, Do(s, Begin(id)).runs, RunKey(r), InProgress)
    {
    }

    /** Upsert the run and, if it was only requested, move it on. None when there is work to do. */
    method Open(r: Request, p: Path, world: World, s: Sys, ghost ok: Class)
      returns (ended: Option<Outcome>, ghost labels: seq<Label>, s': Sys)
      requires Holds(s) && PcOf(s, id).Idle? && ValidRequest(r) && ok(r) && OthersOnly(world, id, ok)
      modifies outbox, runs
      ensures Holds(s') && Reached(s, labels, s', id, r, ok)
      ensures PcOf(s', id) == if ended.Some? then Idle else Working(r, p)
      ensures ended.Some? ==> EndsEarly(ended.value, p, world, s'.runs, RunKey(r))
      ensures ended == Some(Threw) ==> !(world.upsert && world.begin)
      ensures IsQuiet(world) ==> OpensQuietly(ended, s, s', r)
    {
      ended, labels, s' := FirstCall(r, p, world, s, ok);
      ghost var met, first := s', ended;
      if ended.None? && PcOf(s', id).Begun? {
        ended, labels, s' := MoveOn(r, p, world, s, labels, s', ok);
      }
      if IsQuiet(world) && world.upsert {
        QuietOpening(s, r, p, met, first, world, ended, s');
      }
    }

    /** The swap to in progress, or a throw. */
    method MoveOn(r: Request, p: Path, world: World, start: Sys, ghost labels: seq<Label>, s: Sys, ghost ok: Class)
      returns (ended: Option<Outcome>, ghost more: seq<Label>, s': Sys)
      requires Holds(s) && PcOf(s, id) == Begun(r, p) && Reached(start, labels, s, id, r, ok)
      requires OthersOnly(world, id, ok)
      modifies outbox, runs
      ensures Holds(s') && Reached(start, more, s', id, r, ok)
      ensures PcOf(s', id) == if ended.Some? then Idle else Working(r, p)
      ensures ended == if world.begin then None else Some(Threw)
      ensures IsQuiet(world) && world.begin ==> s' == Do(s, Begin(id))
    {
      more, s' := Await(start, labels, s, world.others(AtBegin), r, ok);
      if world.begin {
        Extend(start, more, s', Begin(id), id, r, ok);
        s' := Swap(id, s', Begin(id));
        more, ended := more + [Begin(id)], None;
      } else {
        more, s' := Throw(start, more, s', r, ok);
        ended := Some(Threw);
      }
    }

    lemma QuietOpening(s: Sys, r: Request, p: Path, met: Sys, first: Option<Outcome>, world: World,
                       ended: Option<Outcome>, s': Sys)
      requires PcOf(s, id).Idle? && ValidRequest(r) && met == Do(s, Deliver(id, r, p)) && first != Some(Threw)
      requires first.Some? ==> EndsEarly(first.value, p, world, met.runs, RunKey(r)) && ended == first && s' == met
      requires first.None? ==> OpensRun(met, r, p)
      requires first.None? && !PcOf(met, id).Begun? ==> ended == first && s' == met
      requires first.None? && PcOf(met, id).Begun? ==>
                 if world.begin then ended.None? && s' == Do(met, Begin(id)) else ended == Some(Threw)
      ensures OpensQuietly(ended, s, s', r)
    {
      QuietDelivery(s, r, p);
      if first.None? && PcOf(met, id).Begun? {
        QuietBeginning(met, r, p);
      }
    }

    /** A terminal run ends the delivery and stays as it was; any other is in progress, and no run else moves. */
    ghost predicate OpensQuietly(ended: Option<Outcome>, s: Sys, s': Sys, r: Request) {
      match ended
      case None => RunCame(s.runs, s'.runs, RunKey(r), InProgress) && !IsDone(s, RunKey(r))
      case Some(outcome) => !outcome.Threw? ==> s'.runs == s.runs && IsDone(s, RunKey(r))
    }

    /** The loop over progress events; false when storing one threw. */
    method ReportAll(r: Request, p: Path, world: World, s: Sys, ghost ok: Class)
      returns (all: bool, ghost labels: seq<Label>, s': Sys)
      requires Holds(s) && PcOf(s, id) == Working(r, p) && OthersOnly(world, id, ok)
      modifies outbox, runs
      ensures Holds(s') && PcOf(s', id) == Working(r, p) && Reached(s, labels, s', id, r, ok)
      ensures all ==> HistoryStored(world, |world.history|, r, s'.log)
      ensures ValidRequest(r) ==> (all <==> StoresAll(world))
      ensures IsQuiet(world) ==> s'.runs == s.runs
    {
      all, labels, s' := true, [], s;
      var i := 0;
      while i < |world.history| && all
        invariant i <= |world.history| && Holds(s') && PcOf(s', id) == Working(r, p)
        invariant Reached(s, labels, s', id, r, ok) && (all ==> HistoryStored(world, i, r, s'.log))
        invariant ValidRequest(r) && !all ==> !StoresAll(world)
        invariant IsQuiet(world) ==> s'.runs == s.runs
      {
        ghost var before := s';
        labels, s' := Await(s, labels, s', world.others(AtReport(i)), r, ok);
        HistoryStays(world, i, r, before.log, s'.log);
        all, labels, s' := ReportOne(world, i, r, p, s, labels, s', ok);
        i := i + 1;
      }
    }

    method ReportOne(world: World, i: nat, r: Request, p: Path, ghost start: Sys, ghost labels: seq<Label>, s: Sys,
                     ghost ok: Class) returns (done: bool, ghost more: seq<Label>, s': Sys)
      requires Holds(s) && PcOf(s, id) == Working(r, p) && Reached(start, labels, s, id, r, ok)
      requires i < |world.history| && HistoryStored(world, i, r, s.log)
      modifies outbox
      ensures Holds(s') && PcOf(s', id) == Working(r, p) && Reached(start, more, s', id, r, ok)
      ensures done ==> HistoryStored(world, i + 1, r, s'.log)
      ensures s'.runs == s.runs && (ValidRequest(r) ==> (done <==> world.history[i].stored))
    {
      var step := world.history[i];
      done, more, s' := step.stored, labels, s;
      if done {
        var l := Report(id, step.callbackId, step.step);
        Extend(start, labels, s, l, id, r, ok);
        DoKeepsIdentities(s, l);
        HistoryStays(world, i, r, s.log, Do(s, l).log);
        done, s' := StoreProgress(id, step.callbackId, step.step, s);
        more := if done then labels + [l] else labels;
      }
    }

    /** Enqueue the terminal event. */
    method Emit(r: Request, p: Path, failed: bool, code: Option<string>, world: World, s: Sys, ghost ok: Class)
      returns (done: bool, ghost labels: seq<Label>, s': Sys)
      requires Holds(s) && PcOf(s, id) == Working(r, p) && OthersOnly(world, id, ok)
      modifies outbox, runs
      ensures Holds(s') && Reached(s, labels, s', id, r, ok)
      ensures PcOf(s', id) == if done then Emitted(r, p, if failed then FailedEvent else CompletedEvent, code) else Idle
      ensures KeepsIdentities(s.log, s'.log)
      ensures done ==> Has(s'.log, TerminalId(r, p, if failed then FailedEvent else CompletedEvent))
      ensures (ValidRequest(r) ==> (done <==> world.emit)) && (IsQuiet(world) ==> s'.runs == s.runs)
    {
      labels, s' := Await(s, [], s, world.others(AtEmit), r, ok);
      ghost var waited := s';
      done, labels, s' := EmitNow(r, p, failed, code, world, s, labels, s', ok);
      KeepsTransitive(s.log, waited.log, s'.log);
    }

    method EmitNow(r: Request, p: Path, failed: bool, code: Option<string>, world: World, start: Sys,
                   ghost labels: seq<Label>, s: Sys, ghost ok: Class)
      returns (done: bool, ghost more: seq<Label>, s': Sys)
      requires Holds(s) && PcOf(s, id) == Working(r, p) && Reached(start, labels, s, id, r, ok)
      modifies outbox
      ensures Holds(s') && Reached(start, more, s', id, r, ok) && KeepsIdentities(s.log, s'.log)
      ensures PcOf(s', id) == if done then Emitted(r, p, if failed then FailedEvent else CompletedEvent, code) else Idle
      ensures done ==> Has(s'.log, TerminalId(r, p, if failed then FailedEvent else CompletedEvent))
      ensures (ValidRequest(r) ==> (done <==> world.emit)) && s'.runs == s.runs
    {
      done, more, s' := world.emit, labels, s;
      if done {
        Extend(start, labels, s, Conclude(id, failed, code), id, r, ok);
        done, s' := StoreTerminal(id, failed, code, s);
        more := if done then labels + [Conclude(id, failed, code)] else labels;
      }
      if !done {
        more, s' := Throw(start, labels, s', r, ok);
      }
    }

    /** Swap the state after the event, or throw. */
    method Seal(r: Request, p: Path, world: World, start: Sys, ghost labels: seq<Label>, s: Sys, ghost ok: Class)
      returns (done: bool, ghost more: seq<Label>, s': Sys)
      requires Holds(s) && PcOf(s, id).Emitted? && Reached(start, labels, s, id, r, ok) && OthersOnly(world, id, ok)
      modifies outbox, runs
      ensures Holds(s') && PcOf(s', id).Idle? && Reached(start, more, s', id, r, ok)
      ensures KeepsIdentities(s.log, s'.log) && done == world.finish
      ensures IsQuiet(world) && done ==> s'.runs == Do(s, Finish(id)).runs
    {
      more, s' := Await(start, labels, s, world.others(AtFinish), r, ok);
      done := world.finish;
      if done {
        Extend(start, more, s', Finish(id), id, r, ok);
        DoKeepsIdentities(s', Finish(id));
        more := more + [Finish(id)];
        s' := Swap(id, s', Finish(id));
      } else {
        more, s' := Throw(start, more, s', r, ok);
      }
    }

    /** Enqueue the terminal event, then swap the state; a throw leaves the rest undone. */
    method Close(r: Request, p: Path, failed: bool, code: Option<string>, world: World, s: Sys, ghost ok: Class)
      returns (outcome: Outcome, ghost labels: seq<Label>, s': Sys)
      requires Holds(s) && PcOf(s, id) == Working(r, p) && OthersOnly(world, id, ok)
      modifies outbox, runs
      ensures Holds(s') && PcOf(s', id).Idle? && Reached(s, labels, s', id, r, ok)
      ensures outcome == Threw || outcome == Concluded(if failed then Failed else Completed)
      ensures KeepsIdentities(s.log, s'.log)
      ensures outcome.Concluded? ==> Has(s'.log, TerminalId(r, p, if failed then FailedEvent else CompletedEvent))
      ensures ValidRequest(r) ==> (outcome.Threw? <==> !(world.emit && world.finish))
      ensures IsQuiet(world) && IsInProgress(s, r) && outcome.Concluded? ==>
                RunEnded(s.runs, s'.runs, RunKey(r), failed, code)
    {
      var done;
      done, labels, s' := Emit(r, p, failed, code, world, s, ok);
      if done {
        ghost var emitted := s';
        done, labels, s' := Seal(r, p, world, s, labels, s', ok);
        if IsQuiet(world) && IsInProgress(s, r) && done {
          QuietEnding(emitted, r, p, failed, code);
        }
      }
      outcome := if done then Concluded(if failed then Failed else Completed) else Threw;
    }

    /** This run, and no other, has come to its end; a failure leaves its code. */
    ghost predicate RunEnded(before: Runs, after: Runs, k: string, failed: bool, code: Option<string>) {
      match failed
      case true => RunCame(before, after, k, Failed) && (code.Some? ==> after[k].failureCode == code)
      case false => RunCame(before, after, k, Completed)
    }

    predicate IsInProgress(s: Sys, r: Request) {
      RunKey(r) in s.runs && s.runs[RunKey(r)].state.InProgress?
    }

    lemma QuietEnding(s: Sys, r: Request, p: Path, failed: bool, code: Option<string>)
      requires PcOf(s, id) == Emitted(r, p, if failed then FailedEvent else CompletedEvent, code) && IsInProgress(s, r)
      ensures RunEnded(s.runs, Do(s, Finish(id)).runs, RunKey(r), failed, code)
    {
    }

    /** From work in hand to the end of the delivery. */
    method Work(r: Request, p: Path, world: World, s: Sys, ghost ok: Class)
      returns (outcome: Outcome, ghost labels: seq<Label>, s': Sys)
      requires Holds(s) && PcOf(s, id) == Working(r, p) && OthersOnly(world, id, ok) && ValidRequest(r)
      modifies outbox, runs
      ensures Holds(s') && PcOf(s', id).Idle? && Reached(s, labels, s', id, r, ok)
      ensures Worked(outcome, r, p, world, s'.log)
      ensures IsQuiet(world) && IsInProgress(s, r) ==> EndsQuietly(outcome, s.runs, s'.runs, r, p, world)
    {
      var stored;
      stored, labels, s' := ReportAll(r, p, world, s, ok);
      if p.Restate? && (!stored || world.verdict.Undecided?) {
        labels, s' := Throw(s, labels, s', r, ok);
        return Threw, labels, s';
      }
      ghost var first, mid := labels, s';
      outcome, labels, s' := GoOn(r, p, stored, world, s', ok);
      Join(s, first, mid, labels, s', id, r, ok);
      labels := first + labels;
    }

    /** The verdict, once the reports are stored, or on the direct path once storing one has failed. */
    method GoOn(r: Request, p: Path, stored: bool, world: World, s: Sys, ghost ok: Class)
      returns (outcome: Outcome, ghost labels: seq<Label>, s': Sys)
      requires Holds(s) && PcOf(s, id) == Working(r, p) && OthersOnly(world, id, ok) && ValidRequest(r)
      requires (stored <==> StoresAll(world)) && (stored ==> HistoryStored(world, |world.history|, r, s.log))
      requires p.Restate? ==> stored && !world.verdict.Undecided?
      modifies outbox, runs
      ensures Holds(s') && PcOf(s', id).Idle? && Reached(s, labels, s', id, r, ok)
      ensures Worked(outcome, r, p, world, s'.log)
      ensures IsQuiet(world) && IsInProgress(s, r) ==> EndsQuietly(outcome, s.runs, s'.runs, r, p, world)
    {
      var failed := !(stored && world.verdict.Succeeded?);
      outcome, labels, s' := Close(r, p, failed, FailureCode(p, world), world, s, ok);
      if stored {
        HistoryStays(world, |world.history|, r, s.log, s'.log);
      }
    }

    /** What the end of the work means; it is a throw exactly where a call throws or there is no conclusion. */
    ghost predicate Worked(outcome: Outcome, r: Request, p: Path, world: World, log: Log) {
      match outcome
      case Threw => LeftOpen(p, world) || !world.emit || !world.finish
      case Concluded(Completed) => !LeftOpen(p, world) && AllSucceeded(world, r, p, log)
      case Concluded(Failed) => !LeftOpen(p, world) && HasFailed(world, r, p, log)
      case _ => false
    }

    /** With nobody else about, the run ends as the conclusion says, and no other run changes. */
    ghost predicate EndsQuietly(outcome: Outcome, before: Runs, after: Runs, r: Request, p: Path, world: World) {
      match outcome
      case Concluded(state) =>
        && RunCame(before, after, RunKey(r), state)
        && (state.Failed? && p.Direct? ==> after[RunKey(r)].failureCode == Some("PROVISIONING_ERROR"))
        && (state.Failed? && p.Restate? && world.verdict.Broken? && world.verdict.code.Some? ==>
              after[RunKey(r)].failureCode == world.verdict.code)
      case _ => true
    }

    /**
     * `processTenantProvisioningCompletion`. On the direct path anything that
     * throws among the provisioning steps, reporting included, is a failure of
     * the run; on the other path it is left to redelivery.
     */
    method ProcessTenantProvisioningCompletion(r: Request, p: Path, world: World, s: Sys, ghost ok: Class)
      returns (outcome: Outcome, ghost labels: seq<Label>, s': Sys)
      requires Holds(s) && PcOf(s, id).Idle? && ok(r) && OthersOnly(world, id, ok)
      modifies outbox, runs
      ensures Holds(s') && PcOf(s', id).Idle? && Reached(s, labels, s', id, r, ok)
      ensures outcome.Cached? || outcome.Relayed? ==> EndsEarly(outcome, p, world, s'.runs, RunKey(r))
      ensures outcome.Concluded? ==> Worked(outcome, r, p, world, s'.log)
      ensures outcome.Threw? ==> MayThrow(r, p, world)
      ensures !ValidRequest(r) ==> outcome.Threw? && s' == s
      ensures ValidRequest(r) && Faultless(world) ==>
                outcome.Cached? || outcome.Relayed? || outcome == Concluded(Completed)
      ensures IsQuiet(world) && !outcome.Threw? ==> Quietly(outcome, s, s', r, p, world)
    {
      if !ValidRequest(r) {
        return Threw, [], s;
      }
      var ended;
      ended, labels, s' := Open(r, p, world, s, ok);
      if ended.Some? {
        return ended.value, labels, s';
      }
      ghost var first, mid := labels, s';
      outcome, labels, s' := Work(r, p, world, s', ok);
      Join(s, first, mid, labels, s', id, r, ok);
      labels := first + labels;
      if IsQuiet(world) {
        QuietlyEnded(outcome, s, mid, s', r, p, world);
      }
      if Faultless(world) {
        FaultlessCompletes(outcome, r, p, world, s'.log);
      }
    }

    /** Every step succeeds, every report is stored, and no call throws. */
    predicate Faultless(world: World) {
      world.verdict.Succeeded? && StoresAll(world) && world.upsert && world.begin && world.emit && world.finish
    }

    /** What a throw needs: an invalid request, a call that throws, or an executor without a conclusion. */
    predicate MayThrow(r: Request, p: Path, world: World) {
      || !ValidRequest(r) || LeftOpen(p, world)
      || !world.upsert || !world.begin || !world.emit || !world.finish
    }

    /** With nobody else about: a run that was terminal is left alone, and any other comes to the end that is told. */
    ghost predicate Quietly(outcome: Outcome, s: Sys, s': Sys, r: Request, p: Path, world: World) {
      match outcome
      case Concluded(state) => !IsDone(s, RunKey(r)) && EndsQuietly(outcome, s.runs, s'.runs, r, p, world)
      case _ => IsDone(s, RunKey(r)) && s'.runs == s.runs
    }

    lemma QuietlyEnded(outcome: Outcome, s: Sys, mid: Sys, s': Sys, r: Request, p: Path, world: World)
      requires OpensQuietly(None, s, mid, r) && EndsQuietly(outcome, mid.runs, s'.runs, r, p, world)
      requires outcome.Concluded? || outcome.Threw?
      ensures !outcome.Threw? ==> Quietly(outcome, s, s', r, p, world)
    {
      if outcome.Concluded? {
        forall j | j in s.runs && j != RunKey(r)
          ensures s'.runs[j] == s.runs[j]
        {
          assert j in mid.runs;
        }
        forall j {:trigger j in s'.runs} | true
          ensures j in s'.runs <==> j in s.runs || j == RunKey(r)
        {
          assert j in mid.runs <==> j in s.runs || j == RunKey(r);
        }
      }
    }

    /**
     * So a valid request whose world is faultless ends completed, or finds its
     * run ended already.
     */
    lemma FaultlessCompletes(outcome: Outcome, r: Request, p: Path, world: World, log: Log)
      requires ValidRequest(r) && Faultless(world)
      requires outcome.Threw? ==> MayThrow(r, p, world)
      requires outcome.Concluded? ==> Worked(outcome, r, p, world, log)
      ensures outcome.Cached? || outcome.Relayed? || outcome == Concluded(Completed)
    {
    }
  }

  /** So whatever the protocol keeps in its runs, every execution of the worker keeps. */
  lemma ExecutionKeepsInv(start: Sys, labels: seq<Label>, s: Sys, w: nat, r: Request, ok: Class)
    requires Reached(start, labels, s, w, r, ok) && Inv(start, ok)
    ensures Inv(s, ok)
  {
    assert forall l | l in labels :: Execution(w, r, ok)(l) ==> Allowed(l, ok);
    RunKeepsInv(start, labels, ok);
  }
}
