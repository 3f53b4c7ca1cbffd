/**
 * The replicas of `SignalIngestion` as a state machine, and its main result:
 * in every run every processed signal has exactly one routed row and exactly
 * one downstream row, and no signal ever has two of either.
 */
module SignalProtocol {
  import opened Text
  import opened Outbox
  import opened SignalIngestion
  import Inbox = SignalInbox
  import Steps

  // ── States and steps ─────────────────────────────────────────────────────

  /** What comes next for the signal at the head of the queue. */
  datatype Stage = ToRoute | ToRequest | ToMark

  /** A replica's claimed batch, as it read it; what it read may be stale. */
  datatype Pc = Idle | Busy(queue: seq<Signal>, stage: Stage)

  datatype Sys = Sys(inbox: Inbox.Inbox<Payload>, log: Log, now: int, replicas: map<nat, Pc>)

  datatype Label =
    | Arrive(params: Inbox.Params<Payload>)
    | ClaimBatch(w: nat, tenantId: string, signalType: Inbox.SignalType, limit: nat, owner: string, leaseMs: int)
    | RouteHead(w: nat, grade: Option<int>)
    | RequestHead(w: nat)
    | MarkHead(w: nat)
    | FailHead(w: nat, owner: string, releases: bool)
    | Crash(w: nat)
    | Publish(row: nat)
    | Other(command: Command<Body>)
    | Tick(elapsed: nat)

  function PcOf(s: Sys, w: nat): Pc {
    if w in s.replicas then s.replicas[w] else Idle
  }

  function Goto(s: Sys, w: nat, pc: Pc): Sys {
    s.(replicas := s.replicas[w := pc])
  }

  function Take(queue: seq<Signal>): Pc {
    if queue == [] then Idle else Busy(queue, ToRoute)
  }

  predicate At(s: Sys, w: nat, stage: Stage) {
    match PcOf(s, w)
    case Idle => false
    case Busy(queue, st) => queue != [] && st == stage
  }

  /** The claimed rows as the claim returns them, lease included. */
  function Snapshots(s: Sys, op: Inbox.Op<Payload>): (batch: seq<Signal>)
    requires op.ClaimSignals?
    ensures |batch| == |Inbox.Handed(s.inbox, op)|
  {
    Inbox.Each(Inbox.Handed(s.inbox, op), (r: Signal) => Inbox.Leased(r, op.owner, op.now + op.leaseMs))
  }

  function InboxStep(s: Sys, op: Inbox.Op<Payload>): Sys {
    s.(inbox := Inbox.Do(s.inbox, op))
  }

  function EnqueueStep(s: Sys, c: Command<Body>): Sys {
    s.(log := Enqueued(s.log, c, s.now))
  }

  function Do(s: Sys, l: Label): Sys {
    match l
    case Arrive(params) => InboxStep(s, Inbox.Ingest(params))
    case ClaimBatch(w, tenantId, t, limit, owner, leaseMs) =>
      if PcOf(s, w).Busy? then s
      else
        var op := Inbox.ClaimSignals(tenantId, t, limit, owner, leaseMs, s.now);
        Goto(InboxStep(s, op), w, Take(Snapshots(s, op)))
    case RouteHead(w, grade) =>
      if !At(s, w, ToRoute) then s
      else Goto(EnqueueStep(s, RouteCommand(PcOf(s, w).queue[0], grade)), w, Busy(PcOf(s, w).queue, ToRequest))
    case RequestHead(w) =>
      if !At(s, w, ToRequest) then s
      else Goto(EnqueueStep(s, RequestCommand(PcOf(s, w).queue[0])), w, Busy(PcOf(s, w).queue, ToMark))
    case MarkHead(w) =>
      if !At(s, w, ToMark) then s
      else
        var q := PcOf(s, w).queue;
        Goto(InboxStep(s, Inbox.MarkSignals(q[0].tenantId, {q[0].id}, s.now)), w, Take(q[1..]))
    case FailHead(w, owner, releases) =>
      if PcOf(s, w).Idle? || PcOf(s, w).queue == [] then s
      else
        var q := PcOf(s, w).queue;
        var released := if releases then InboxStep(s, Inbox.ReleaseSignals(q[0].tenantId, {q[0].id}, owner)) else s;
        Goto(released, w, Take(q[1..]))
    case Crash(w) => Goto(s, w, Idle)
    case Publish(row) => if 1 <= row <= |s.log| then s.(log := Consumed(s.log, row, s.now)) else s
    case Other(command) => EnqueueStep(s, command)
    case Tick(elapsed) => s.(now := s.now + elapsed)
  }

  /** Other producers use other event types. */
  predicate Foreign(d: Identity) {
    d.eventType != EventTypeName(SignalRouted) && d.eventType != EventTypeName(BriefRequested)
    && d.eventType != EventTypeName(WorkRequested)
  }

  predicate Allowed(l: Label) {
    l.Other? ==> Foreign(l.command.identity) && l.command.payload.OtherBody?
  }

  function Run(s: Sys, labels: seq<Label>): Sys {
    Steps.Run(s, labels, Do)
  }

  const Start := Sys(Inbox.Inbox([], 0), [], 0, map[])

  // ── Invariant ────────────────────────────────────────────────────────────

  /** The immutable part of a signal. */
  function Core(s: Signal): Signal {
    s.(processedAt := None, leaseOwner := None, leaseExpiresAt := None, attempts := 0)
  }

  predicate RoutedFor(r: Row<Body>, s: Signal) {
    r.payload.RoutedBody? && r.payload.signalId == s.id && r.identity == RoutedId(s)
    && r.payload == RouteCommand(s, r.payload.grade).payload
  }

  predicate RequestFor(r: Row<Body>, s: Signal) {
    r.identity == RequestCommand(s).identity && r.payload == RequestCommand(s).payload
  }

  ghost predicate GoodRow(r: Row<Body>, records: Inbox.Records<Payload>) {
    || (r.payload.OtherBody? && Foreign(r.identity))
    || exists i :: 0 <= i < |records| && (RoutedFor(r, Core(records[i])) || RequestFor(r, Core(records[i])))
  }

  ghost predicate GoodLog(log: Log, records: Inbox.Records<Payload>) {
    WellFormed(log) && forall k | 0 <= k < |log| :: GoodRow(log[k], records)
  }

  ghost predicate Known(records: Inbox.Records<Payload>, q: Signal) {
    exists i :: 0 <= i < |records| && Core(records[i]) == Core(q)
  }

  ghost predicate GoodPc(pc: Pc, records: Inbox.Records<Payload>, log: Log) {
    match pc
    case Idle => true
    case Busy(queue, stage) =>
      && (forall k | 0 <= k < |queue| :: Known(records, queue[k]))
      && (!stage.ToRoute? && queue != [] ==> Has(log, RoutedId(Core(queue[0]))))
      && (stage.ToMark? && queue != [] ==> Has(log, RequestCommand(Core(queue[0])).identity))
  }

  ghost predicate GoodPcs(s: Sys) {
    forall w {:trigger w in s.replicas} | w in s.replicas :: GoodPc(s.replicas[w], s.inbox.records, s.log)
  }

  ghost predicate Done(log: Log, s: Signal) {
    Has(log, RoutedId(Core(s))) && Has(log, RequestCommand(Core(s)).identity)
  }

  ghost predicate AllDone(records: Inbox.Records<Payload>, log: Log) {
    forall i | 0 <= i < |records| && records[i].processedAt.Some? :: Done(log, records[i])
  }

  ghost predicate Inv(s: Sys) {
    match s
    case Sys(inbox, log, _, _) =>
      Inbox.Sound(inbox) && GoodLog(log, inbox.records) && AllDone(inbox.records, log) && GoodPcs(s)
  }

  // ── Frame lemmas ─────────────────────────────────────────────────────────

  /** Records keep their immutable part; new ones come at the end. */
  ghost predicate Grows(records: Inbox.Records<Payload>, records': Inbox.Records<Payload>) {
    |records| <= |records'| && forall i | 0 <= i < |records| :: Core(records'[i]) == Core(records[i])
  }

  lemma InboxGrows(b: Inbox.Inbox<Payload>, op: Inbox.Op<Payload>)
    requires Inbox.Sound(b)
    ensures Inbox.Sound(Inbox.Do(b, op)) && Grows(b.records, Inbox.Do(b, op).records)
  {
    Inbox.DoKeepsSound(b, op);
    forall i | 0 <= i < |b.records|
      ensures i < |Inbox.Do(b, op).records| && Core(Inbox.Do(b, op).records[i]) == Core(b.records[i])
    {
      Inbox.DoChangesEachRecord(b, op, i);
    }
    if b.records == [] {
      assert |b.records| <= |Inbox.Do(b, op).records|;
    } else {
      Inbox.DoChangesEachRecord(b, op, 0);
    }
  }

  lemma GoodLogGrows(log: Log, records: Inbox.Records<Payload>, records': Inbox.Records<Payload>)
    requires GoodLog(log, records) && Grows(records, records')
    ensures GoodLog(log, records')
  {
    forall k | 0 <= k < |log|
      ensures GoodRow(log[k], records')
    {
      assert GoodRow(log[k], records);
    }
  }

  lemma GoodPcGrows(pc: Pc, log: Log, log': Log, records: Inbox.Records<Payload>, records': Inbox.Records<Payload>)
    requires GoodPc(pc, records, log) && Grows(records, records') && KeepsIdentities(log, log')
    ensures GoodPc(pc, records', log')
  {
    if pc.Busy? {
      forall k | 0 <= k < |pc.queue|
        ensures Known(records', pc.queue[k])
      {
        assert Known(records, pc.queue[k]);
      }
    }
  }

  lemma AllDoneGrows(log: Log, log': Log, records: Inbox.Records<Payload>)
    requires AllDone(records, log) && KeepsIdentities(log, log')
    ensures AllDone(records, log')
  {
  }

  lemma GotoKeepsInv(s: Sys, w: nat, pc: Pc)
    requires Inv(s) && GoodPc(pc, s.inbox.records, s.log)
    ensures Inv(Goto(s, w, pc))
  {
    var s' := Goto(s, w, pc);
    forall v | v in s'.replicas
      ensures GoodPc(s'.replicas[v], s'.inbox.records, s'.log)
    {
      if v != w {
        assert v in s.replicas;
      }
    }
  }

  /** An inbox step keeps the invariant when whatever it marks has both its rows. */
  lemma InboxKeepsInv(s: Sys, op: Inbox.Op<Payload>)
    requires Inv(s) && AllDone(Inbox.Do(s.inbox, op).records, s.log)
    ensures Inv(InboxStep(s, op)) && Grows(s.inbox.records, InboxStep(s, op).inbox.records)
  {
    var s' := InboxStep(s, op);
    InboxGrows(s.inbox, op);
    GoodLogGrows(s.log, s.inbox.records, s'.inbox.records);
    forall v | v in s'.replicas
      ensures GoodPc(s'.replicas[v], s'.inbox.records, s'.log)
    {
      assert v in s.replicas;
      GoodPcGrows(s.replicas[v], s.log, s.log, s.inbox.records, s'.inbox.records);
    }
  }

  lemma LogKeepsInv(s: Sys, log': Log)
    requires Inv(s) && GoodLog(log', s.inbox.records) && KeepsIdentities(s.log, log')
    ensures Inv(s.(log := log'))
  {
    AllDoneGrows(s.log, log', s.inbox.records);
    forall v | v in s.replicas
      ensures GoodPc(s.replicas[v], s.inbox.records, log')
    {
      GoodPcGrows(s.replicas[v], s.log, log', s.inbox.records, s.inbox.records);
    }
  }

  lemma EnqueueKeepsInv(s: Sys, c: Command<Body>)
    requires Inv(s)
    requires GoodRow(Row(|s.log| + 1, c.identity, c.payload, s.now, None), s.inbox.records)
    ensures Inv(EnqueueStep(s, c)) && Has(EnqueueStep(s, c).log, c.identity)
    ensures KeepsIdentities(s.log, EnqueueStep(s, c).log)
  {
    var log' := Enqueued(s.log, c, s.now);
    if !Has(s.log, c.identity) {
      FirstEnqueueIsStored(s.log, c, s.now);
      HasByPosition(log', c.identity, |s.log|);
    }
    SameIdentitiesKeep(s.log, log');
    LogKeepsInv(s, log');
  }

  // ── Each step keeps the invariant ────────────────────────────────────────

  /** Only marking ever processes a signal. */
  lemma OtherOpsProcessNothing(b: Inbox.Inbox<Payload>, op: Inbox.Op<Payload>, log: Log)
    requires Inbox.Sound(b) && !op.MarkSignals? && AllDone(b.records, log)
    ensures AllDone(Inbox.Do(b, op).records, log)
  {
    InboxGrows(b, op);
    forall i | 0 <= i < |Inbox.Do(b, op).records| && Inbox.Do(b, op).records[i].processedAt.Some?
      ensures Done(log, Inbox.Do(b, op).records[i])
    {
      assert i < |b.records|;
      assert Core(Inbox.Do(b, op).records[i]) == Core(b.records[i]);
    }
  }

  /** Marking processes only the named signal, whatever is required of processed signals. */
  lemma MarkingMarksOne(b: Inbox.Inbox<Payload>, q: Signal, now: int, done: Signal -> bool)
    requires Inbox.Sound(b) && Known(b.records, q) && done(Core(q))
    requires forall i | 0 <= i < |b.records| && b.records[i].processedAt.Some? :: done(Core(b.records[i]))
    ensures var records' := Inbox.Do(b, Inbox.MarkSignals(q.tenantId, {q.id}, now)).records;
            forall i | 0 <= i < |records'| && records'[i].processedAt.Some? :: done(Core(records'[i]))
  {
    var op: Inbox.Op<Payload> := Inbox.MarkSignals(q.tenantId, {q.id}, now);
    var at :| 0 <= at < |b.records| && Core(b.records[at]) == Core(q);
    assert b.records[at].id == q.id;
    InboxGrows(b, op);
    forall i | 0 <= i < |b.records| && Inbox.Do(b, op).records[i].processedAt.Some?
      ensures done(Core(Inbox.Do(b, op).records[i]))
    {
      if b.records[i].processedAt.None? {
        assert b.records[i].id == q.id;
      }
    }
  }

  lemma MarkingIsJustified(b: Inbox.Inbox<Payload>, q: Signal, now: int, log: Log)
    requires Inbox.Sound(b) && AllDone(b.records, log) && Known(b.records, q) && Done(log, q)
    ensures AllDone(Inbox.Do(b, Inbox.MarkSignals(q.tenantId, {q.id}, now)).records, log)
  {
    var done := (c: Signal) => Has(log, RoutedId(c)) && Has(log, RequestCommand(c).identity);
    MarkingMarksOne(b, q, now, done);
  }

  lemma StoredIsKnown(records: Inbox.Records<Payload>, q: Signal)
    requires q in records
    ensures Known(records, q)
  {
    var i :| 0 <= i < |records| && records[i] == q;
    assert Core(records[i]) == Core(q);
  }

  lemma ClaimKeepsInv(s: Sys, w: nat, op: Inbox.Op<Payload>)
    requires Inv(s) && op.ClaimSignals?
    ensures Inv(Goto(InboxStep(s, op), w, Take(Snapshots(s, op))))
  {
    OtherOpsProcessNothing(s.inbox, op, s.log);
    InboxKeepsInv(s, op);
    var s1, batch := InboxStep(s, op), Snapshots(s, op);
    var pc := Take(batch);
    forall k | 0 <= k < |batch|
      ensures Known(s.inbox.records, batch[k])
    {
      var r := Inbox.Handed(s.inbox, op)[k];
      Inbox.HandedIsClaimable(s.inbox, op, r);
      StoredIsKnown(s.inbox.records, r);
      assert Core(batch[k]) == Core(r);
    }
    assert GoodPc(pc, s.inbox.records, s.log);
    GoodPcGrows(pc, s.log, s.log, s.inbox.records, s1.inbox.records);
    GotoKeepsInv(s1, w, pc);
  }

  lemma RestIsGood(queue: seq<Signal>, stage: Stage, records: Inbox.Records<Payload>, log: Log)
    requires GoodPc(Busy(queue, stage), records, log) && queue != []
    ensures GoodPc(Take(queue[1..]), records, log)
  {
  }

  lemma CommandRowIsGood(records: Inbox.Records<Payload>, q: Signal, grade: Option<int>, id: nat, now: int)
    requires Known(records, q)
    ensures GoodRow(Row(id, RouteCommand(q, grade).identity, RouteCommand(q, grade).payload, now, None), records)
    ensures GoodRow(Row(id, RequestCommand(q).identity, RequestCommand(q).payload, now, None), records)
  {
    var i :| 0 <= i < |records| && Core(records[i]) == Core(q);
    assert RouteCommand(Core(q), grade) == RouteCommand(q, grade);
    assert RequestCommand(Core(q)) == RequestCommand(q);
    assert RoutedFor(Row(id, RouteCommand(q, grade).identity, RouteCommand(q, grade).payload, now, None),
                     Core(records[i]));
    assert RequestFor(Row(id, RequestCommand(q).identity, RequestCommand(q).payload, now, None), Core(records[i]));
  }

  lemma RoutedIsGood(queue: seq<Signal>, records: Inbox.Records<Payload>, log: Log, log': Log)
    requires queue != [] && GoodPc(Busy(queue, ToRoute), records, log)
    requires Has(log', RoutedId(queue[0]))
    ensures GoodPc(Busy(queue, ToRequest), records, log')
  {
    assert RoutedId(Core(queue[0])) == RoutedId(queue[0]);
  }

  lemma RouteKeepsInv(s: Sys, w: nat, grade: Option<int>)
    requires Inv(s)
    ensures Inv(Do(s, RouteHead(w, grade)))
  {
    if At(s, w, ToRoute) {
      var pc := PcOf(s, w);
      var c := RouteCommand(pc.queue[0], grade);
      assert GoodPc(pc, s.inbox.records, s.log);
      CommandRowIsGood(s.inbox.records, pc.queue[0], grade, |s.log| + 1, s.now);
      EnqueueKeepsInv(s, c);
      RoutedIsGood(pc.queue, s.inbox.records, s.log, EnqueueStep(s, c).log);
      GotoKeepsInv(EnqueueStep(s, c), w, Busy(pc.queue, ToRequest));
    }
  }

  lemma RequestedIsGood(queue: seq<Signal>, records: Inbox.Records<Payload>, log: Log, log': Log)
    requires queue != [] && GoodPc(Busy(queue, ToRequest), records, log) && KeepsIdentities(log, log')
    requires Has(log', RequestCommand(queue[0]).identity)
    ensures GoodPc(Busy(queue, ToMark), records, log')
  {
    CoreRequest(queue[0]);
  }

  lemma CoreRequest(q: Signal)
    ensures RequestCommand(Core(q)) == RequestCommand(q)
  {
  }

  lemma RequestKeepsInv(s: Sys, w: nat)
    requires Inv(s)
    ensures Inv(Do(s, RequestHead(w)))
  {
    if At(s, w, ToRequest) {
      var pc := PcOf(s, w);
      var c := RequestCommand(pc.queue[0]);
      assert GoodPc(pc, s.inbox.records, s.log);
      CommandRowIsGood(s.inbox.records, pc.queue[0], None, |s.log| + 1, s.now);
      EnqueueKeepsInv(s, c);
      RequestedIsGood(pc.queue, s.inbox.records, s.log, EnqueueStep(s, c).log);
      GotoKeepsInv(EnqueueStep(s, c), w, Busy(pc.queue, ToMark));
    }
  }

  lemma MarkKeepsInv(s: Sys, w: nat)
    requires Inv(s)
    ensures Inv(Do(s, MarkHead(w)))
  {
    if At(s, w, ToMark) {
      var q := PcOf(s, w).queue;
      var op: Inbox.Op<Payload> := Inbox.MarkSignals(q[0].tenantId, {q[0].id}, s.now);
      assert GoodPc(PcOf(s, w), s.inbox.records, s.log);
      MarkingIsJustified(s.inbox, q[0], s.now, s.log);
      InboxKeepsInv(s, op);
      GoodPcGrows(PcOf(s, w), s.log, s.log, s.inbox.records, InboxStep(s, op).inbox.records);
      RestIsGood(q, ToMark, InboxStep(s, op).inbox.records, s.log);
      GotoKeepsInv(InboxStep(s, op), w, Take(q[1..]));
    }
  }

  lemma FailKeepsInv(s: Sys, w: nat, owner: string, releases: bool)
    requires Inv(s)
    ensures Inv(Do(s, FailHead(w, owner, releases)))
  {
    var pc := PcOf(s, w);
    if pc.Busy? && pc.queue != [] {
      var op: Inbox.Op<Payload> := Inbox.ReleaseSignals(pc.queue[0].tenantId, {pc.queue[0].id}, owner);
      assert GoodPc(pc, s.inbox.records, s.log);
      RestIsGood(pc.queue, pc.stage, s.inbox.records, s.log);
      OtherOpsProcessNothing(s.inbox, op, s.log);
      InboxKeepsInv(s, op);
      GoodPcGrows(Take(pc.queue[1..]), s.log, s.log, s.inbox.records, InboxStep(s, op).inbox.records);
      GotoKeepsInv(if releases then InboxStep(s, op) else s, w, Take(pc.queue[1..]));
    }
  }

  lemma PublishKeepsInv(s: Sys, row: nat)
    requires Inv(s)
    ensures Inv(Do(s, Publish(row)))
  {
    if 1 <= row <= |s.log| {
      var log' := Consumed(s.log, row, s.now);
      ConsumeKeepsWellFormed(s.log, row, s.now);
      SameIdentitiesKeep(s.log, log');
      forall k | 0 <= k < |log'|
        ensures GoodRow(log'[k], s.inbox.records)
      {
        assert GoodRow(s.log[k], s.inbox.records);
      }
      LogKeepsInv(s, log');
    }
  }

  lemma ArriveKeepsInv(s: Sys, params: Inbox.Params<Payload>)
    requires Inv(s)
    ensures Inv(Do(s, Arrive(params)))
  {
    OtherOpsProcessNothing(s.inbox, Inbox.Ingest(params), s.log);
    InboxKeepsInv(s, Inbox.Ingest(params));
  }

  lemma TickKeepsInv(s: Sys, elapsed: nat)
    requires Inv(s)
    ensures Inv(Do(s, Tick(elapsed)))
  {
  }

  lemma DoKeepsInv(s: Sys, l: Label)
    requires Inv(s) && Allowed(l)
    ensures Inv(Do(s, l))
  {
    match l
    case Arrive(params) => ArriveKeepsInv(s, params);
    case ClaimBatch(w, tenantId, t, limit, owner, leaseMs) =>
      if PcOf(s, w).Idle? {
        ClaimKeepsInv(s, w, Inbox.ClaimSignals(tenantId, t, limit, owner, leaseMs, s.now));
      }
    case RouteHead(w, grade) => RouteKeepsInv(s, w, grade);
    case RequestHead(w) => RequestKeepsInv(s, w);
    case MarkHead(w) => MarkKeepsInv(s, w);
    case FailHead(w, owner, releases) => FailKeepsInv(s, w, owner, releases);
    case Crash(w) => GotoKeepsInv(s, w, Idle);
    case Publish(row) => PublishKeepsInv(s, row);
    case Other(command) => EnqueueKeepsInv(s, command);
    case Tick(elapsed) => TickKeepsInv(s, elapsed);
  }

  lemma {:induction false} RunKeepsInv(s: Sys, labels: seq<Label>)
    requires Inv(s) && forall l | l in labels :: Allowed(l)
    ensures Inv(Run(s, labels))
    decreases |labels|
  {
    if labels != [] {
      DoKeepsInv(s, labels[0]);
      RunKeepsInv(Do(s, labels[0]), labels[1..]);
    }
  }

  // ── Main result ──────────────────────────────────────────────────────────

  predicate IsRouted(r: Row<Body>, s: Signal) {
    r.payload.RoutedBody? && r.payload.signalId == s.id
  }

  /** A downstream request for the signal, of either type and for any agent. */
  predicate IsRequest(r: Row<Body>, s: Signal) {
    || (r.payload.BriefBody? && r.payload.signalId == s.id)
    || (r.payload.WorkBody? && r.payload.signalId == s.id)
  }

  /** The routed row says what the classifier says of the stored signal. */
  predicate RightlyRouted(r: Row<Body>, s: Signal) {
    IsRouted(r, s) && r.payload.kind == KindOf(s) && r.payload.route == Classify(KindOf(s))
  }

  /** The request goes to the agent the classifier names, as a brief exactly for the intel director. */
  predicate RightlyRequested(r: Row<Body>, s: Signal) {
    var route := Classify(KindOf(s));
    IsRequest(r, s) &&
    r.payload == if route.agent.IntelDirector? then BriefBody(s.id, KindOf(s), route.priority)
                 else WorkBody(s.id, KindOf(s), route)
  }

  /** The router's table, as the two rows of a signal show it. */
  predicate FollowsTable(routed: Body, request: Body) {
    match routed
    case RoutedBody(id, kind, route, _) =>
      if kind == "prospect.replied" then
        route == Route(P0, WarmOutboundResearcher, 30) && request == WorkBody(id, kind, route)
      else if kind == "competitor.pricing_change" then
        route == Route(P1, IntelDirector, 120) && request == BriefBody(id, kind, P1)
      else if kind == "approval.rejected" then
        route == Route(P2, LearningDirector, 1440) && request == WorkBody(id, kind, route)
      else
        route == Route(P2, IntelDirector, 1440) && request == BriefBody(id, kind, P2)
    case _ => false
  }

  lemma RightRowsFollowTable(p: Row<Body>, q: Row<Body>, s: Signal)
    requires RightlyRouted(p, s) && RightlyRequested(q, s)
    ensures FollowsTable(p.payload, q.payload)
  {
  }

  lemma RowsAreRight(p: Row<Body>, q: Row<Body>, s: Signal)
    requires RoutedFor(p, Core(s)) && RequestFor(q, Core(s))
    ensures RightlyRouted(p, s) && RightlyRequested(q, s) && FollowsTable(p.payload, q.payload)
  {
    assert KindOf(Core(s)) == KindOf(s);
    RightRowsFollowTable(p, q, s);
  }

  lemma RowsOfASignal(s: Sys, i: nat, k: nat)
    requires Inv(s) && i < |s.inbox.records| && k < |s.log|
    ensures IsRouted(s.log[k], s.inbox.records[i]) ==> RoutedFor(s.log[k], Core(s.inbox.records[i]))
    ensures IsRequest(s.log[k], s.inbox.records[i]) ==> RequestFor(s.log[k], Core(s.inbox.records[i]))
  {
    var r := s.inbox.records[i];
    assert GoodRow(s.log[k], s.inbox.records);
    if IsRouted(s.log[k], r) || IsRequest(s.log[k], r) {
      var j :| 0 <= j < |s.inbox.records|
               && (RoutedFor(s.log[k], Core(s.inbox.records[j])) || RequestFor(s.log[k], Core(s.inbox.records[j])));
      assert s.inbox.records[j].id == r.id;
      assert i == j;
    }
  }

  /** The row with the identity of a signal's command is that signal's row. */
  lemma IdentityGivesRow(s: Sys, i: nat, k: nat)
    requires Inv(s) && i < |s.inbox.records| && k < |s.log|
    ensures s.log[k].identity == RoutedId(Core(s.inbox.records[i])) ==> IsRouted(s.log[k], s.inbox.records[i])
    ensures s.log[k].identity == RequestCommand(Core(s.inbox.records[i])).identity ==>
              IsRequest(s.log[k], s.inbox.records[i])
  {
    var c := Core(s.inbox.records[i]);
    assert GoodRow(s.log[k], s.inbox.records);
    if s.log[k].identity == RoutedId(c) || s.log[k].identity == RequestCommand(c).identity {
      var j :| 0 <= j < |s.inbox.records|
               && (RoutedFor(s.log[k], Core(s.inbox.records[j])) || RequestFor(s.log[k], Core(s.inbox.records[j])));
      IdentityNamesSignal(c, Core(s.inbox.records[j]));
      IdentityNamesSignal(Core(s.inbox.records[j]), c);
    }
  }

  lemma AtMostOneOfEach(s: Sys, i: nat)
    requires Inv(s) && i < |s.inbox.records|
    ensures var r := s.inbox.records[i];
            && (forall j, k | 0 <= j < |s.log| && 0 <= k < |s.log| ::
                  IsRouted(s.log[j], r) && IsRouted(s.log[k], r) ==> j == k)
            && (forall j, k | 0 <= j < |s.log| && 0 <= k < |s.log| ::
                  IsRequest(s.log[j], r) && IsRequest(s.log[k], r) ==> j == k)
  {
    var r := s.inbox.records[i];
    var routed, request := RoutedId(Core(r)), RequestCommand(Core(r)).identity;
    forall k | 0 <= k < |s.log|
      ensures IsRouted(s.log[k], r) ==> s.log[k].identity == routed
      ensures IsRequest(s.log[k], r) ==> s.log[k].identity == request
    {
      RowsOfASignal(s, i, k);
    }
  }

  lemma BothRowsThere(s: Sys, i: nat)
    requires Inv(s) && i < |s.inbox.records| && s.inbox.records[i].processedAt.Some?
    ensures var r := s.inbox.records[i];
            exists j, k :: 0 <= j < |s.log| && 0 <= k < |s.log|
              && RightlyRouted(s.log[j], r) && RightlyRequested(s.log[k], r)
              && FollowsTable(s.log[j].payload, s.log[k].payload)
  {
    var r := s.inbox.records[i];
    var j, k := Find(s.log, RoutedId(Core(r))), Find(s.log, RequestCommand(Core(r)).identity);
    assert Done(s.log, r);
    IdentityGivesRow(s, i, j);
    IdentityGivesRow(s, i, k);
    RowsOfASignal(s, i, j);
    RowsOfASignal(s, i, k);
    RowsAreRight(s.log[j], s.log[k], r);
  }

  /**
   * In every run of any number of replicas, with crashes, failures, overlapping
   * leases and replays: every signal has at most one routed row and at most one
   * downstream row across both request types; a processed signal has exactly
   * one of each, they say what the classifier says of the stored signal, and
   * kind, priority, agent and half-life are a row of the router's table.
   */
  lemma ProcessedSignalsAreRoutedOnce(labels: seq<Label>, i: nat)
    requires forall l | l in labels :: Allowed(l)
    requires i < |Run(Start, labels).inbox.records|
    ensures var s := Run(Start, labels);
            var r := s.inbox.records[i];
            && (forall j, k | 0 <= j < |s.log| && 0 <= k < |s.log| ::
                  IsRouted(s.log[j], r) && IsRouted(s.log[k], r) ==> j == k)
            && (forall j, k | 0 <= j < |s.log| && 0 <= k < |s.log| ::
                  IsRequest(s.log[j], r) && IsRequest(s.log[k], r) ==> j == k)
            && (r.processedAt.Some? ==>
                  exists j, k :: 0 <= j < |s.log| && 0 <= k < |s.log|
                    && RightlyRouted(s.log[j], r) && RightlyRequested(s.log[k], r)
                    && FollowsTable(s.log[j].payload, s.log[k].payload))
  {
    RunKeepsInv(Start, labels);
    AtMostOneOfEach(Run(Start, labels), i);
    if Run(Start, labels).inbox.records[i].processedAt.Some? {
      BothRowsThere(Run(Start, labels), i);
    }
  }
}
