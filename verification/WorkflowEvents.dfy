/**
 * Which terminal events a run leaves in the outbox, over every run of the
 * workflow protocol: when they name the run, and when there are two of them.
 */
module WorkflowEvents {
  import opened Text
  import opened Outbox
  import opened WorkflowRuns
  import opened WorkflowProtocol
  import Steps

  /** A row of this kind whose payload names the run. */
  predicate Names(b: Body, k: string, kind: Kind) {
    match b
    case Terminal(r, _, j) => j == kind && RunKey(r) == k
    case _ => false
  }

  ghost predicate NamedRow(log: Log, k: string, kind: Kind) {
    exists i :: 0 <= i < |log| && Names(log[i].payload, k, kind)
  }

  lemma NamedRowStays(log: Log, log': Log, k: string, kind: Kind)
    requires NamedRow(log, k, kind) && SamePayloads(log, log')
    ensures NamedRow(log', k, kind)
  {
    var i :| 0 <= i < |log| && Names(log[i].payload, k, kind);
    assert Names(log'[i].payload, k, kind);
  }

  lemma DoKeepsPayloads(s: Sys, l: Label)
    ensures SamePayloads(s.log, Do(s, l).log)
  {
  }

  // ── When the event names the run ─────────────────────────────────────────

  /** Two valid requests for different workflows share the identity of a terminal event. */
  ghost predicate Clash(r: Request, p: Path, q: Request, o: Path, kind: Kind) {
    && ValidRequest(r) && ValidRequest(q) && RunKey(r) != RunKey(q) && !kind.ProgressEvent?
    && TerminalId(r, p, kind) == TerminalId(q, o, kind)
  }

  /** Such requests are among those delivered. */
  ghost predicate Ambiguous(ok: Class) {
    exists r, p, q, o, kind :: ok(r) && ok(q) && Clash(r, p, q, o, kind)
  }

  function Valid(ok: Class): Class {
    (r: Request) => ok(r) && ValidRequest(r)
  }

  lemma EvidenceNamesTheRun(log: Log, k: string, kind: Kind, ok: Class)
    requires GoodLog(log, Valid(ok)) && !kind.ProgressEvent? && Evidence(log, k, kind, Valid(ok)) && !Ambiguous(ok)
    ensures NamedRow(log, k, kind)
  {
    var r, p :| Valid(ok)(r) && RunKey(r) == k && Has(log, TerminalId(r, p, kind));
    RowNamesTheRun(log, r, p, kind, ok);
  }

  lemma RowNamesTheRun(log: Log, r: Request, p: Path, kind: Kind, ok: Class)
    requires GoodLog(log, Valid(ok)) && !kind.ProgressEvent? && !Ambiguous(ok)
    requires ok(r) && ValidRequest(r) && Has(log, TerminalId(r, p, kind))
    ensures NamedRow(log, RunKey(r), kind)
  {
    var i := Find(log, TerminalId(r, p, kind));
    assert GoodRow(log[i], Valid(ok));
    if TypeName(kind) == TypeName(ProgressEvent) {
      TypeNamesDiffer(kind, ProgressEvent);
    }
    if log[i].payload.Terminal? {
      var Terminal(q, o, j) := log[i].payload;
      TypeNamesDiffer(j, kind);
      assert RunKey(q) != RunKey(r) ==> Clash(r, p, q, o, kind);
      assert Names(log[i].payload, RunKey(r), kind);
    }
  }

  lemma AllowedValid(labels: seq<Label>, ok: Class)
    requires forall l | l in labels :: Allowed(l, ok)
    ensures forall l | l in labels :: Allowed(l, Valid(ok))
  {
  }

  /** Every terminal run of every run of the protocol on these requests is named by its event. */
  ghost predicate AlwaysNamed(ok: Class) {
    forall labels: seq<Label>, k: string ::
      (forall l | l in labels :: Allowed(l, ok)) ==> NamedIn(Run(Start, labels), k)
  }

  ghost predicate NamedIn(s: Sys, k: string) {
    k in s.runs ==>
      && (s.runs[k].state.Completed? ==> NamedRow(s.log, k, CompletedEvent))
      && (s.runs[k].state.Failed? ==> NamedRow(s.log, k, FailedEvent))
  }

  lemma UnambiguousRunIsNamed(labels: seq<Label>, k: string, ok: Class)
    requires !Ambiguous(ok) && forall l | l in labels :: Allowed(l, ok)
    ensures NamedIn(Run(Start, labels), k)
  {
    var s := Run(Start, labels);
    AllowedValid(labels, ok);
    RunKeepsInv(Start, labels, Valid(ok));
    if k in s.runs {
      assert Backed(s.log, k, s.runs[k].state, Valid(ok));
      if s.runs[k].state.Completed? {
        EvidenceNamesTheRun(s.log, k, CompletedEvent, ok);
      }
      if s.runs[k].state.Failed? {
        EvidenceNamesTheRun(s.log, k, FailedEvent, ok);
      }
    }
  }

  /** One undisturbed delivery, from the upsert to the terminal swap. */
  function Delivery(r: Request, p: Path, kind: Kind): seq<Label> {
    [Deliver(0, r, p), Begin(0)] + [Conclude(0, kind.FailedEvent?, None), Finish(0)]
  }

  function Outcome(kind: Kind): State {
    if kind.FailedEvent? then Failed else Completed
  }

  lemma DeliveryRuns(s: Sys, r: Request, p: Path, kind: Kind) returns (s': Sys)
    requires ValidRequest(r) && PcOf(s, 0).Idle? && RunKey(r) !in s.runs && !kind.ProgressEvent?
    ensures s' == Run(s, Delivery(r, p, kind)) && PcOf(s', 0).Idle?
    ensures s'.runs.Keys == s.runs.Keys + {RunKey(r)} && s'.runs[RunKey(r)].state == Outcome(kind)
    ensures s'.log == Enqueued(s.log, Command(TerminalId(r, p, kind), Terminal(r, p, kind)), s.now)
  {
    var s2 := OpenRuns(s, r, p);
    s' := CloseRuns(s2, r, p, kind);
    Steps.Append(s, [Deliver(0, r, p), Begin(0)], [Conclude(0, kind.FailedEvent?, None), Finish(0)], Do);
  }

  lemma TwoSteps(s: Sys, k: Label, l: Label)
    ensures Run(s, [k, l]) == Do(Do(s, k), l)
  {
    Steps.Single(s, k, Do);
    Steps.Snoc(s, [k], l, Do);
    assert [k] + [l] == [k, l];
  }

  lemma OpenRuns(s: Sys, r: Request, p: Path) returns (s': Sys)
    requires ValidRequest(r) && PcOf(s, 0).Idle? && RunKey(r) !in s.runs
    ensures s' == Run(s, [Deliver(0, r, p), Begin(0)]) && PcOf(s', 0) == Working(r, p) && s'.log == s.log
    ensures s'.now == s.now
    ensures s'.runs.Keys == s.runs.Keys + {RunKey(r)} && s'.runs[RunKey(r)].state == InProgress
    ensures s'.workers == s.workers[0 := Working(r, p)]
  {
    TwoSteps(s, Deliver(0, r, p), Begin(0));
    var s1 := DeliverStep(s, 0, r, p);
    assert PcOf(s1, 0) == Begun(r, p);
    s' := BeginStep(s1, 0);
  }

  lemma CloseRuns(s: Sys, r: Request, p: Path, kind: Kind) returns (s': Sys)
    requires PcOf(s, 0) == Working(r, p) && RunKey(r) in s.runs && s.runs[RunKey(r)].state == InProgress
    requires !kind.ProgressEvent?
    ensures s' == Run(s, [Conclude(0, kind.FailedEvent?, None), Finish(0)]) && PcOf(s', 0).Idle?
    ensures s'.runs.Keys == s.runs.Keys && s'.runs[RunKey(r)].state == Outcome(kind)
    ensures s'.log == Enqueued(s.log, Command(TerminalId(r, p, kind), Terminal(r, p, kind)), s.now)
  {
    TwoSteps(s, Conclude(0, kind.FailedEvent?, None), Finish(0));
    var s1 := ConcludeStep(s, 0, kind.FailedEvent?, None);
    assert PcOf(s1, 0) == Emitted(r, p, kind, None);
    s' := FinishStep(s1, 0);
  }

  /** One workflow after the other, both undisturbed; the second one's event is taken for the first one's. */
  lemma ClashHidesARun(r: Request, p: Path, q: Request, o: Path, kind: Kind)
    requires Clash(r, p, q, o, kind)
    ensures var s := Run(Start, Delivery(r, p, kind) + Delivery(q, o, kind));
            && RunKey(q) in s.runs && s.runs[RunKey(q)].state == Outcome(kind) && !NamedRow(s.log, RunKey(q), kind)
  {
    Steps.Append(Start, Delivery(r, p, kind), Delivery(q, o, kind), Do);
    var s1 := DeliveryRuns(Start, r, p, kind);
    assert s1.log == [Row(1, TerminalId(r, p, kind), Terminal(r, p, kind), 0, None)];
    var s2 := DeliveryRuns(s1, q, o, kind);
    assert s1.log[0].identity == TerminalId(q, o, kind);
    assert s2.log == s1.log;
  }

  lemma ClashIsNotNamed(r: Request, p: Path, q: Request, o: Path, kind: Kind)
    requires Clash(r, p, q, o, kind)
    ensures !NamedIn(Run(Start, Delivery(r, p, kind) + Delivery(q, o, kind)), RunKey(q))
  {
    ClashHidesARun(r, p, q, o, kind);
  }

  lemma AmbiguousIsNotNamed(ok: Class)
    requires Ambiguous(ok)
    ensures !AlwaysNamed(ok)
  {
    var r, p, q, o, kind :| ok(r) && ok(q) && Clash(r, p, q, o, kind);
    var labels := Delivery(r, p, kind) + Delivery(q, o, kind);
    ClashIsNotNamed(r, p, q, o, kind);
    assert forall l | l in labels :: Allowed(l, ok);
  }

  /**
   * Every terminal run is named by its event, in every run of the protocol,
   * exactly when no two delivered requests for different workflows share the
   * identity of a terminal event.
   */
  lemma AlwaysNamedIffUnambiguous(ok: Class)
    ensures AlwaysNamed(ok) <==> !Ambiguous(ok)
  {
    if Ambiguous(ok) {
      AmbiguousIsNotNamed(ok);
    } else {
      forall labels: seq<Label>, k: string | forall l | l in labels :: Allowed(l, ok)
        ensures NamedIn(Run(Start, labels), k)
      {
        UnambiguousRunIsNamed(labels, k, ok);
      }
    }
  }

  lemma ReadsItself(q: Request, o: Path, kind: Kind)
    requires ValidRequest(q)
    ensures ReadsAs(TerminalKey(q, o, kind), |q.dedupeKey|, o, kind)
    ensures ReadRequest(q.tenantId, TerminalKey(q, o, kind), |q.dedupeKey|, o, kind) == q
  {
    var text := TerminalKey(q, o, kind);
    OwnReading(q, o, kind);
    ReadBack(q.tenantId, text, |q.dedupeKey|, o, kind);
    SameCutSameRequest(q, o, ReadRequest(q.tenantId, text, |q.dedupeKey|, o, kind), o, kind);
  }

  lemma RunKeysDiffer(r: Request, q: Request)
    requires r.tenantId == q.tenantId
    ensures RunKey(r) == RunKey(q) <==> r.workflowId == q.workflowId
  {
    assert RunKey(r)[|r.tenantId| + 1..] == r.workflowId && RunKey(q)[|q.tenantId| + 1..] == q.workflowId;
  }

  /** The request's terminal key can be cut at i, which leaves another workflow id. */
  predicate ReadsOther(r: Request, p: Path, kind: Kind, i: nat, o: Path) {
    var text := TerminalKey(r, p, kind);
    ReadsAs(text, i, o, kind) && ReadRequest(r.tenantId, text, i, o, kind).workflowId != r.workflowId
  }

  lemma ClashIsRead(r: Request, p: Path, q: Request, o: Path, kind: Kind)
    requires Clash(r, p, q, o, kind)
    ensures ReadsOther(r, p, kind, |q.dedupeKey|, o)
  {
    ReadsItself(q, o, kind);
    RunKeysDiffer(r, q);
  }

  lemma ReadingClashes(r: Request, p: Path, kind: Kind, i: nat, o: Path)
    requires ValidRequest(r) && !kind.ProgressEvent? && ReadsOther(r, p, kind, i, o)
    ensures Clash(r, p, ReadRequest(r.tenantId, TerminalKey(r, p, kind), i, o, kind), o, kind)
  {
    var q := ReadRequest(r.tenantId, TerminalKey(r, p, kind), i, o, kind);
    ReadBack(r.tenantId, TerminalKey(r, p, kind), i, o, kind);
    RunKeysDiffer(r, q);
  }

  /**
   * Exactly which requests can clash with another: those whose terminal key can
   * be cut so that it leaves another workflow id.
   */
  lemma ClashesIff(r: Request, p: Path, kind: Kind)
    requires ValidRequest(r) && !kind.ProgressEvent?
    ensures (exists q, o :: Clash(r, p, q, o, kind)) <==> exists i, o :: ReadsOther(r, p, kind, i, o)
  {
    if q, o :| Clash(r, p, q, o, kind) {
      ClashIsRead(r, p, q, o, kind);
    }
    if i, o :| ReadsOther(r, p, kind, i, o) {
      ReadingClashes(r, p, kind, i, o);
    }
  }

  /** Any two texts that surround the marker make such a pair, so clashing requests exist in every tenant. */
  lemma CollidingKeysClash(tenantId: string, d: string, v: string, w: string)
    requires IsUuid(tenantId) && d != "" && w != ""
    ensures var m := Marker(Direct, CompletedEvent);
            Clash(Request(tenantId, v + m + w, d), Direct, Request(tenantId, w, d + m + v), Direct, CompletedEvent)
  {
    var m := Marker(Direct, CompletedEvent);
    KeysCollide(tenantId, d, v, w);
    RunKeysDiffer(Request(tenantId, v + m + w, d), Request(tenantId, w, d + m + v));
  }

  /** Colon-free dedupe keys are an unambiguous class. */
  lemma ColonFreeIsUnambiguous()
    ensures !Ambiguous((r: Request) => ':' !in r.dedupeKey)
  {
    forall r: Request, p, q: Request, o, kind | ':' !in r.dedupeKey && ':' !in q.dedupeKey
      ensures !Clash(r, p, q, o, kind)
    {
      if Clash(r, p, q, o, kind) {
        ColonFreeKeysIdentify(r, p, q, o, kind);
      }
    }
  }

  // ── When there are two events ────────────────────────────────────────────

  function KindOf(failed: bool): Kind {
    if failed then FailedEvent else CompletedEvent
  }

  /** At step j some worker at work on the run concludes with this verdict. */
  predicate Concludes(labels: seq<Label>, j: nat, k: string, kind: Kind)
    requires j < |labels|
  {
    var s := Run(Start, labels[..j]);
    && labels[j].Conclude? && KindOf(labels[j].failed) == kind
    && PcOf(s, labels[j].w).Working? && RunKey(PcOf(s, labels[j].w).request) == k
  }

  ghost predicate EverConcludes(labels: seq<Label>, k: string, kind: Kind) {
    exists j | 0 <= j < |labels| :: Concludes(labels, j, k, kind)
  }

  lemma ConcludesSooner(labels: seq<Label>, j: nat, k: string, kind: Kind)
    requires j + 1 < |labels|
    ensures Concludes(labels, j, k, kind) <==> Concludes(labels[..|labels| - 1], j, k, kind)
  {
    assert labels[..|labels| - 1][..j] == labels[..j];
  }

  lemma EverSplits(labels: seq<Label>, k: string, kind: Kind)
    requires labels != []
    ensures EverConcludes(labels, k, kind) <==>
            EverConcludes(labels[..|labels| - 1], k, kind) || Concludes(labels, |labels| - 1, k, kind)
  {
    var n := |labels| - 1;
    if EverConcludes(labels, k, kind) {
      var j :| 0 <= j < |labels| && Concludes(labels, j, k, kind);
      if j < n {
        ConcludesSooner(labels, j, k, kind);
      }
    }
    if EverConcludes(labels[..n], k, kind) {
      var j :| 0 <= j < n && Concludes(labels[..n], j, k, kind);
      ConcludesSooner(labels, j, k, kind);
    }
  }

  /** A row that names the run is written by a conclusion, or was there before. */
  lemma NewNameIsConcluded(s: Sys, l: Label, k: string, kind: Kind, ok: Class)
    requires Allowed(l, ok) && NamedRow(Do(s, l).log, k, kind) && !NamedRow(s.log, k, kind)
    ensures l.Conclude? && KindOf(l.failed) == kind && PcOf(s, l.w).Working? && RunKey(PcOf(s, l.w).request) == k
  {
    assert forall j | 0 <= j < |s.log| :: !Names(s.log[j].payload, k, kind);
    DoKeepsPayloads(s, l);
    var s' := Do(s, l);
    var i :| 0 <= i < |s'.log| && Names(s'.log[i].payload, k, kind);
  }

  lemma ConclusionIsNamed(s: Sys, l: Label, ok: Class)
    requires Inv(s, Valid(ok)) && !Ambiguous(ok) && l.Conclude? && PcOf(s, l.w).Working?
    ensures NamedRow(Do(s, l).log, RunKey(PcOf(s, l.w).request), KindOf(l.failed))
  {
    var Working(r, p) := PcOf(s, l.w);
    var kind := KindOf(l.failed);
    assert GoodPc(s.workers[l.w], s.log, Valid(ok));
    DoKeepsInv(s, l, Valid(ok));
    var s' := Do(s, l);
    assert GoodPc(s'.workers[l.w], s'.log, Valid(ok)) && s'.workers[l.w] == Emitted(r, p, kind, l.code);
    RowNamesTheRun(s'.log, r, p, kind, ok);
  }

  /**
   * Over unambiguous requests, colon-free ones for example, and in every run:
   * the outbox has an event of this kind naming the workflow exactly when some
   * delivery of it reached that verdict.
   */
  lemma {:induction false} NamedIffConcluded(labels: seq<Label>, k: string, kind: Kind, ok: Class)
    requires !Ambiguous(ok) && forall l | l in labels :: Allowed(l, ok)
    ensures NamedRow(Run(Start, labels).log, k, kind) <==> EverConcludes(labels, k, kind)
    decreases |labels|
  {
    if labels != [] {
      var n := |labels| - 1;
      var front, l := labels[..n], labels[n];
      var s := Run(Start, front);
      assert labels == front + [l] && labels[..n] == front;
      NamedIffConcluded(front, k, kind, ok);
      EverSplits(labels, k, kind);
      Steps.Snoc(Start, front, l, Do);
      AllowedValid(front, ok);
      RunKeepsInv(Start, front, Valid(ok));
      DoKeepsPayloads(s, l);
      if NamedRow(s.log, k, kind) {
        NamedRowStays(s.log, Do(s, l).log, k, kind);
      } else if NamedRow(Do(s, l).log, k, kind) {
        NewNameIsConcluded(s, l, k, kind, ok);
      }
      if Concludes(labels, n, k, kind) {
        ConclusionIsNamed(s, l, ok);
      }
    }
  }

  /** The outbox holds both terminal events of a workflow exactly when two of its deliveries disagreed. */
  lemma BothEventsIffVerdictsDiffer(labels: seq<Label>, k: string, ok: Class)
    requires !Ambiguous(ok) && forall l | l in labels :: Allowed(l, ok)
    ensures NamedRow(Run(Start, labels).log, k, CompletedEvent) && NamedRow(Run(Start, labels).log, k, FailedEvent)
       <==> exists i, j :: 0 <= i < |labels| && 0 <= j < |labels|
                           && Concludes(labels, i, k, CompletedEvent) && Concludes(labels, j, k, FailedEvent)
  {
    NamedIffConcluded(labels, k, CompletedEvent, ok);
    NamedIffConcluded(labels, k, FailedEvent, ok);
  }

  // ── One delivery at a time ───────────────────────────────────────────────

  /**
   * What a caller can arrange for one workflow: a delivery starts only when no
   * other is under way, and none stops between its event and its swap.
   */
  predicate OrderlyStep(s: Sys, l: Label, k: string) {
    && (l.Deliver? && PcOf(s, l.w).Idle? && RunKey(l.request) == k ==> Late(s, k) == {})
    && (l.Crash? ==> !(PcOf(s, l.w).Emitted? && RunKey(PcOf(s, l.w).request) == k))
  }

  predicate Orderly(s: Sys, labels: seq<Label>, k: string)
    decreases |labels|
  {
    labels != [] ==> OrderlyStep(s, labels[0], k) && Orderly(Do(s, labels[0]), labels[1..], k)
  }

  /** What the stage of the only delivery under way says about the run. */
  predicate InStage(pc: Pc, runs: Runs, k: string) {
    match pc
    case Idle => true
    case Begun(_, _) => k in runs && runs[k].state.Requested?
    case Working(_, _) => k in runs && runs[k].state.InProgress?
    case Emitted(_, _, kind, _) => k in runs && runs[k].state.InProgress? && !kind.ProgressEvent?
  }

  /** The verdict is in: in the run's state, or about to be. */
  ghost predicate Decided(s: Sys, k: string, kind: Kind) {
    || (k in s.runs && IsTerminal(s.runs[k].state) && s.runs[k].state == Outcome(kind))
    || exists w :: w in s.workers && s.workers[w].Emitted? && Involved(s.workers[w], k) && s.workers[w].kind == kind
  }

  ghost predicate Calm(s: Sys, k: string) {
    && (forall v, w {:trigger v in s.workers, w in s.workers} | v in s.workers && w in s.workers
          && Involved(s.workers[v], k) && Involved(s.workers[w], k) :: v == w)
    && (forall w {:trigger w in s.workers} | w in s.workers && Involved(s.workers[w], k) ::
          InStage(s.workers[w], s.runs, k))
    && (NamedRow(s.log, k, CompletedEvent) ==> Decided(s, k, CompletedEvent))
    && (NamedRow(s.log, k, FailedEvent) ==> Decided(s, k, FailedEvent))
  }

  lemma DecidedOnce(s: Sys, k: string)
    requires Calm(s, k)
    ensures !(NamedRow(s.log, k, CompletedEvent) && NamedRow(s.log, k, FailedEvent))
  {
  }

  /** Nothing about this run moved. */
  lemma QuietStepKeepsCalm(s: Sys, s': Sys, k: string)
    requires Calm(s, k) && (k in s.runs <==> k in s'.runs) && (k in s.runs ==> s'.runs[k] == s.runs[k])
    requires forall w ::
               (w in s.workers && Involved(s.workers[w], k)) <==> (w in s'.workers && Involved(s'.workers[w], k))
    requires forall w {:trigger w in s.workers} | w in s.workers && Involved(s.workers[w], k) ::
               s'.workers[w] == s.workers[w]
    requires NamedRow(s'.log, k, CompletedEvent) ==> NamedRow(s.log, k, CompletedEvent)
    requires NamedRow(s'.log, k, FailedEvent) ==> NamedRow(s.log, k, FailedEvent)
    ensures Calm(s', k)
  {
  }

  lemma NoNewNames(s: Sys, l: Label, k: string, ok: Class)
    requires Allowed(l, ok)
    requires !(l.Conclude? && PcOf(s, l.w).Working? && RunKey(PcOf(s, l.w).request) == k)
    ensures NamedRow(Do(s, l).log, k, CompletedEvent) ==> NamedRow(s.log, k, CompletedEvent)
    ensures NamedRow(Do(s, l).log, k, FailedEvent) ==> NamedRow(s.log, k, FailedEvent)
  {
    if NamedRow(Do(s, l).log, k, CompletedEvent) && !NamedRow(s.log, k, CompletedEvent) {
      NewNameIsConcluded(s, l, k, CompletedEvent, ok);
    }
    if NamedRow(Do(s, l).log, k, FailedEvent) && !NamedRow(s.log, k, FailedEvent) {
      NewNameIsConcluded(s, l, k, FailedEvent, ok);
    }
  }

  /** The only worker involved moves on, or a first one becomes involved, or the only one leaves. */
  lemma MoveKeepsCalm(s: Sys, s': Sys, w: nat, k: string)
    requires forall v {:trigger v in s.workers} | v in s.workers && v != w :: !Involved(s.workers[v], k)
    requires w in s'.workers && s'.workers == s.workers[w := s'.workers[w]]
    requires InStage(s'.workers[w], s'.runs, k)
    requires NamedRow(s'.log, k, CompletedEvent) ==> Decided(s', k, CompletedEvent)
    requires NamedRow(s'.log, k, FailedEvent) ==> Decided(s', k, FailedEvent)
    ensures Calm(s', k)
  {
    assert forall v {:trigger v in s'.workers} | v in s'.workers && v != w :: v in s.workers;
  }

  lemma DeliverKeepsCalm(s: Sys, w: nat, r: Request, p: Path, k: string, ok: Class)
    requires Calm(s, k) && OrderlyStep(s, Deliver(w, r, p), k) && Allowed(Deliver(w, r, p), ok)
    ensures Calm(DeliverStep(s, w, r, p), k)
  {
    var s' := DeliverStep(s, w, r, p);
    if PcOf(s, w).Idle? && ValidRequest(r) && RunKey(r) == k {
      assert forall v {:trigger v in s.workers} | v in s.workers && Involved(s.workers[v], k) :: v in Late(s, k);
      MoveKeepsCalm(s, s', w, k);
    } else {
      QuietStepKeepsCalm(s, s', k);
    }
  }

  lemma BeginKeepsCalm(s: Sys, w: nat, k: string)
    requires Calm(s, k)
    ensures Calm(BeginStep(s, w), k)
  {
    var s' := BeginStep(s, w);
    if PcOf(s, w).Begun? && RunKey(PcOf(s, w).request) == k {
      assert w in s.workers && InStage(s.workers[w], s.runs, k);
      MoveKeepsCalm(s, s', w, k);
    } else {
      QuietStepKeepsCalm(s, s', k);
    }
  }

  lemma OwnVerdictKeepsCalm(s: Sys, w: nat, failed: bool, code: Option<string>, k: string, ok: Class)
    requires Calm(s, k) && PcOf(s, w).Working? && RunKey(PcOf(s, w).request) == k
    ensures Calm(ConcludeStep(s, w, failed, code), k)
  {
    var s' := ConcludeStep(s, w, failed, code);
    assert w in s.workers && InStage(s.workers[w], s.runs, k);
    assert s'.workers[w] == Emitted(s.workers[w].request, s.workers[w].path, KindOf(failed), code);
    assert Decided(s', k, KindOf(failed));
    OtherNameIsOld(s, Conclude(w, failed, code), k, ok);
    MoveKeepsCalm(s, s', w, k);
  }

  lemma ConcludeKeepsCalm(s: Sys, w: nat, failed: bool, code: Option<string>, k: string, ok: Class)
    requires Calm(s, k)
    ensures Calm(ConcludeStep(s, w, failed, code), k)
  {
    if PcOf(s, w).Working? && RunKey(PcOf(s, w).request) == k {
      OwnVerdictKeepsCalm(s, w, failed, code, k, ok);
    } else {
      NoNewNames(s, Conclude(w, failed, code), k, ok);
      ForeignVerdict(s, w, failed, code, k);
      QuietStepKeepsCalm(s, ConcludeStep(s, w, failed, code), k);
    }
  }

  /** A verdict on another run moves nobody at work on this one. */
  lemma ForeignVerdict(s: Sys, w: nat, failed: bool, code: Option<string>, k: string)
    requires !(PcOf(s, w).Working? && RunKey(PcOf(s, w).request) == k)
    ensures var s' := ConcludeStep(s, w, failed, code);
            && s'.runs == s.runs
            && (forall v :: (v in s.workers && Involved(s.workers[v], k)) <==>
                            (v in s'.workers && Involved(s'.workers[v], k)))
            && (forall v {:trigger v in s.workers} | v in s.workers && Involved(s.workers[v], k) ::
                  s'.workers[v] == s.workers[v])
  {
  }

  /** A working delivery that is alone means no verdict was in, so its own is the only one. */
  lemma OtherNameIsOld(s: Sys, l: Label, k: string, ok: Class)
    requires Calm(s, k) && l.Conclude? && PcOf(s, l.w).Working? && RunKey(PcOf(s, l.w).request) == k
    ensures !NamedRow(Do(s, l).log, k, KindOf(!l.failed))
  {
    assert l.w in s.workers && InStage(s.workers[l.w], s.runs, k);
    assert !Decided(s, k, KindOf(!l.failed));
    if NamedRow(Do(s, l).log, k, KindOf(!l.failed)) {
      NewNameIsConcluded(s, l, k, KindOf(!l.failed), ok);
    }
  }

  lemma FinishKeepsCalm(s: Sys, w: nat, k: string)
    requires Calm(s, k)
    ensures Calm(FinishStep(s, w), k)
  {
    var s' := FinishStep(s, w);
    if PcOf(s, w).Emitted? && RunKey(PcOf(s, w).request) == k {
      assert w in s.workers && InStage(s.workers[w], s.runs, k);
      assert Decided(s', k, s.workers[w].kind);
      assert forall kind | Decided(s, k, kind) :: kind == s.workers[w].kind;
      MoveKeepsCalm(s, s', w, k);
    } else {
      QuietStepKeepsCalm(s, s', k);
    }
  }

  lemma CrashKeepsCalm(s: Sys, w: nat, k: string)
    requires Calm(s, k) && OrderlyStep(s, Crash(w), k)
    ensures Calm(Goto(s, w, Idle), k)
  {
    var s' := Goto(s, w, Idle);
    if w in s.workers && Involved(s.workers[w], k) {
      assert InStage(s.workers[w], s.runs, k);
      assert forall kind :: !Decided(s, k, kind);
      MoveKeepsCalm(s, s', w, k);
    } else {
      QuietStepKeepsCalm(s, s', k);
    }
  }

  lemma DoKeepsCalm(s: Sys, l: Label, k: string, ok: Class)
    requires Calm(s, k) && OrderlyStep(s, l, k) && Allowed(l, ok)
    ensures Calm(Do(s, l), k)
  {
    match l
    case Deliver(w, r, p) => DeliverKeepsCalm(s, w, r, p, k, ok);
    case Begin(w) => BeginKeepsCalm(s, w, k);
    case Conclude(w, failed, code) => ConcludeKeepsCalm(s, w, failed, code, k, ok);
    case Finish(w) => FinishKeepsCalm(s, w, k);
    case Crash(w) => CrashKeepsCalm(s, w, k);
    case _ =>
      NoNewNames(s, l, k, ok);
      QuietStepKeepsCalm(s, Do(s, l), k);
  }

  lemma {:induction false} RunKeepsCalm(s: Sys, labels: seq<Label>, k: string, ok: Class)
    requires Calm(s, k) && Orderly(s, labels, k) && forall l | l in labels :: Allowed(l, ok)
    ensures Calm(Run(s, labels), k)
    decreases |labels|
  {
    if labels != [] {
      DoKeepsCalm(s, labels[0], k, ok);
      RunKeepsCalm(Do(s, labels[0]), labels[1..], k, ok);
    }
  }

  /**
   * A workflow delivered one delivery at a time, none of which stops between
   * its event and its swap, has at most one terminal event, in every run and
   * whatever happens to other workflows.
   */
  lemma OrderlyDeliveriesLeaveOneEvent(labels: seq<Label>, k: string, ok: Class)
    requires Orderly(Start, labels, k) && forall l | l in labels :: Allowed(l, ok)
    ensures !(NamedRow(Run(Start, labels).log, k, CompletedEvent) && NamedRow(Run(Start, labels).log, k, FailedEvent))
  {
    RunKeepsCalm(Start, labels, k, ok);
    DecidedOnce(Run(Start, labels), k);
  }

  // ── Both conditions are needed ───────────────────────────────────────────

  /** Two workers at work on one request: one fails, the other completes. */
  function Race(r: Request): seq<Label> {
    [Deliver(0, r, Direct), Begin(0)] + [Deliver(1, r, Direct), Conclude(1, true, None)]
    + [Conclude(0, false, None), Finish(0)]
  }

  /** One worker stops between its event and its swap, and the request is delivered again. */
  function Redelivery(r: Request): seq<Label> {
    [Deliver(0, r, Direct), Begin(0)] + [Conclude(0, true, None), Crash(0)]
    + ([Deliver(0, r, Direct)] + [Conclude(0, false, None), Finish(0)])
  }

  lemma HasNamed(log: Log, i: nat, k: string, kind: Kind)
    requires i < |log| && Names(log[i].payload, k, kind)
    ensures NamedRow(log, k, kind)
  {
  }

  lemma KindsDiffer(r: Request, p: Path)
    ensures TerminalId(r, p, FailedEvent) != TerminalId(r, p, CompletedEvent)
  {
    if TypeName(FailedEvent) == TypeName(CompletedEvent) {
      TypeNamesDiffer(FailedEvent, CompletedEvent);
    }
  }

  /** A failed event is in; a worker still at work on the run completes it. */
  lemma SecondVerdict(s: Sys, r: Request) returns (s': Sys)
    requires PcOf(s, 0) == Working(r, Direct) && RunKey(r) in s.runs && s.runs[RunKey(r)].state.InProgress?
    requires |s.log| == 1 && s.log[0].payload == Terminal(r, Direct, FailedEvent)
    requires s.log[0].identity == TerminalId(r, Direct, FailedEvent)
    ensures s' == Run(s, [Conclude(0, false, None), Finish(0)])
    ensures s'.runs.Keys == s.runs.Keys && s'.runs[RunKey(r)].state.Completed?
    ensures NamedRow(s'.log, RunKey(r), CompletedEvent) && NamedRow(s'.log, RunKey(r), FailedEvent)
  {
    KindsDiffer(r, Direct);
    s' := CloseRuns(s, r, Direct, CompletedEvent);
    assert s'.log
        == s.log + [Row(2, TerminalId(r, Direct, CompletedEvent), Terminal(r, Direct, CompletedEvent), s.now, None)];
    HasNamed(s'.log, 0, RunKey(r), FailedEvent);
    HasNamed(s'.log, 1, RunKey(r), CompletedEvent);
  }

  lemma RaceLeavesBoth(r: Request)
    requires ValidRequest(r)
    ensures var s := Run(Start, Race(r));
            NamedRow(s.log, RunKey(r), CompletedEvent) && NamedRow(s.log, RunKey(r), FailedEvent)
  {
    var a, b, c := [Deliver(0, r, Direct), Begin(0)], [Deliver(1, r, Direct), Conclude(1, true, None)],
                   [Conclude(0, false, None), Finish(0)];
    var s1 := OpenRuns(Start, r, Direct);
    var s2 := DeliverStep(s1, 1, r, Direct);
    assert PcOf(s2, 1) == Working(r, Direct);
    var s3 := ConcludeStep(s2, 1, true, None);
    TwoSteps(s1, Deliver(1, r, Direct), Conclude(1, true, None));
    assert s3.log == [Row(1, TerminalId(r, Direct, FailedEvent), Terminal(r, Direct, FailedEvent), 0, None)];
    var s4 := SecondVerdict(s3, r);
    Steps.Append(Start, a, b, Do);
    Steps.Append(Start, a + b, c, Do);
  }

  /** The worker stops after the failed event; the run is still in progress. */
  lemma FailAndStop(s: Sys, r: Request) returns (s': Sys)
    requires PcOf(s, 0) == Working(r, Direct) && s.log == []
    ensures s' == Run(s, [Conclude(0, true, None), Crash(0)]) && PcOf(s', 0).Idle? && s'.runs == s.runs && |s'.log| == 1
    ensures s'.log[0].payload == Terminal(r, Direct, FailedEvent)
    ensures s'.log[0].identity == TerminalId(r, Direct, FailedEvent)
  {
    TwoSteps(s, Conclude(0, true, None), Crash(0));
    s' := Goto(ConcludeStep(s, 0, true, None), 0, Idle);
  }

  lemma DeliveredAgain(s: Sys, r: Request) returns (s': Sys)
    requires ValidRequest(r) && PcOf(s, 0).Idle? && RunKey(r) in s.runs && s.runs[RunKey(r)].state.InProgress?
    ensures s' == Run(s, [Deliver(0, r, Direct)]) && PcOf(s', 0) == Working(r, Direct) && s'.runs == s.runs
    ensures s'.log == s.log
  {
    Steps.Single(s, Deliver(0, r, Direct), Do);
    s' := DeliverStep(s, 0, r, Direct);
  }

  lemma RedeliveryLeavesBoth(r: Request)
    requires ValidRequest(r)
    ensures var s := Run(Start, Redelivery(r));
            NamedRow(s.log, RunKey(r), CompletedEvent) && NamedRow(s.log, RunKey(r), FailedEvent)
  {
    var s1 := OpenRuns(Start, r, Direct);
    var s2 := FailAndStop(s1, r);
    var s3 := DeliveredAgain(s2, r);
    var s4 := SecondVerdict(s3, r);
    FourParts([Deliver(0, r, Direct), Begin(0)], [Conclude(0, true, None), Crash(0)], [Deliver(0, r, Direct)],
              [Conclude(0, false, None), Finish(0)]);
  }

  lemma FourParts(a: seq<Label>, b: seq<Label>, c: seq<Label>, d: seq<Label>)
    ensures Run(Start, a + b + (c + d)) == Run(Run(Run(Run(Start, a), b), c), d)
  {
    Steps.Append(Start, a, b, Do);
    Steps.Append(Start, a + b, c + d, Do);
    Steps.Append(Run(Start, a + b), c, d, Do);
  }
}
