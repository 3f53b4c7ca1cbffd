/**
 * The ingestion loop as the source writes it (`processTenant`,
 * `processSignal`, apps/worker-signal-router/src/signal-ingestion-worker.ts),
 * over the inbox and outbox repositories. At every await other replicas,
 * producers and the publisher may act and time may pass. Every execution,
 * faults included, is proved to be a run of `SignalProtocol`.
 */
module SignalWorker {
  import opened Text
  import opened Outbox
  import opened SignalIngestion
  import opened SignalProtocol
  import Inbox = SignalInbox
  import Steps

  /** How far one signal gets before something throws, and what everyone else does before each call for it. */
  datatype Luck = Luck(
    grade: Option<int>,
    route: bool,
    request: bool,
    mark: bool,
    release: bool,
    beforeRoute: seq<Label>,
    beforeRequest: seq<Label>,
    beforeMark: seq<Label>,
    beforeRelease: seq<Label>)

  /** No call for the signal throws. */
  predicate Lucky(luck: Luck) {
    luck.route && luck.request && luck.mark
  }

  datatype Fate = Handled | GivenBack | Escaped

  const SIGNAL_TYPES := [Inbox.Competitive, Inbox.Community, Inbox.Icp, Inbox.Product, Inbox.Market, Inbox.Internal]

  // ── Whose step it is ─────────────────────────────────────────────────────

  predicate ByReplica(l: Label, w: nat) {
    match l
    case ClaimBatch(v, _, _, _, _, _) => v == w
    case RouteHead(v, _) => v == w
    case RequestHead(v) => v == w
    case MarkHead(v) => v == w
    case FailHead(v, _, _) => v == w
    case Crash(v) => v == w
    case _ => false
  }

  /** What others may do: anything the protocol allows, but not in this replica's name. */
  ghost predicate OthersOnly(labels: seq<Label>, w: nat) {
    forall l | l in labels :: Allowed(l) && !ByReplica(l, w)
  }

  ghost predicate FairLuck(luck: Luck, w: nat) {
    && OthersOnly(luck.beforeRoute, w) && OthersOnly(luck.beforeRequest, w)
    && OthersOnly(luck.beforeMark, w) && OthersOnly(luck.beforeRelease, w)
  }

  ghost predicate Reached(start: Sys, labels: seq<Label>, s: Sys) {
    Steps.Reached(start, labels, s, Do, Allowed)
  }

  lemma Extend(start: Sys, labels: seq<Label>, s: Sys, l: Label)
    requires Reached(start, labels, s) && Allowed(l)
    ensures Reached(start, labels + [l], Do(s, l))
  {
    Steps.Extend(start, labels, s, l, Do, Allowed);
  }

  lemma Join(s0: Sys, first: seq<Label>, s1: Sys, second: seq<Label>, s2: Sys)
    requires Reached(s0, first, s1) && Reached(s1, second, s2)
    ensures Reached(s0, first + second, s2)
  {
    Steps.Join(s0, first, s1, second, s2, Do, Allowed);
  }

  lemma OthersLeaveMe(s: Sys, l: Label, w: nat)
    requires !ByReplica(l, w)
    ensures PcOf(Do(s, l), w) == PcOf(s, w)
  {
  }

  /** So every execution keeps what the protocol keeps in its runs. */
  lemma ExecutionKeepsInv(start: Sys, labels: seq<Label>, s: Sys)
    requires Reached(start, labels, s) && Inv(start)
    ensures Inv(s)
  {
    RunKeepsInv(start, labels);
  }

  // ── What stays processed ─────────────────────────────────────────────────

  ghost predicate IsProcessed(b: Inbox.Inbox<Payload>, id: nat) {
    exists i :: 0 <= i < |b.records| && b.records[i].id == id && b.records[i].processedAt.Some?
  }

  lemma OpKeepsProcessed(b: Inbox.Inbox<Payload>, op: Inbox.Op<Payload>, id: nat)
    requires Inbox.Sound(b) && IsProcessed(b, id)
    ensures IsProcessed(Inbox.Do(b, op), id)
  {
    var i :| 0 <= i < |b.records| && b.records[i].id == id && b.records[i].processedAt.Some?;
    Inbox.DoChangesEachRecord(b, op, i);
    assert Inbox.Do(b, op).records[i].id == id;
  }

  lemma DoKeepsProcessed(s: Sys, l: Label, id: nat)
    requires Inbox.Sound(s.inbox) && IsProcessed(s.inbox, id)
    ensures IsProcessed(Do(s, l).inbox, id) && Inbox.Sound(Do(s, l).inbox)
  {
    match l
    case Arrive(params) => OpKeepsSoundProcessed(s, Inbox.Ingest(params), id);
    case ClaimBatch(w, tenantId, t, limit, owner, leaseMs) =>
      OpKeepsSoundProcessed(s, Inbox.ClaimSignals(tenantId, t, limit, owner, leaseMs, s.now), id);
    case MarkHead(w) =>
      if At(s, w, ToMark) {
        var q := PcOf(s, w).queue[0];
        OpKeepsSoundProcessed(s, Inbox.MarkSignals(q.tenantId, {q.id}, s.now), id);
      }
    case FailHead(w, owner, releases) =>
      if PcOf(s, w).Busy? && PcOf(s, w).queue != [] {
        var q := PcOf(s, w).queue[0];
        OpKeepsSoundProcessed(s, Inbox.ReleaseSignals(q.tenantId, {q.id}, owner), id);
      }
    case _ =>
  }

  lemma OpKeepsSoundProcessed(s: Sys, op: Inbox.Op<Payload>, id: nat)
    requires Inbox.Sound(s.inbox) && IsProcessed(s.inbox, id)
    ensures IsProcessed(Inbox.Do(s.inbox, op), id) && Inbox.Sound(Inbox.Do(s.inbox, op))
  {
    Inbox.DoKeepsSound(s.inbox, op);
    OpKeepsProcessed(s.inbox, op, id);
  }

  lemma {:induction false} RunKeepsProcessed(s: Sys, labels: seq<Label>, id: nat)
    requires Inbox.Sound(s.inbox) && IsProcessed(s.inbox, id)
    ensures IsProcessed(Run(s, labels).inbox, id)
    decreases |labels|
  {
    if labels != [] {
      DoKeepsProcessed(s, labels[0], id);
      RunKeepsProcessed(Do(s, labels[0]), labels[1..], id);
    }
  }

  /** What a replica holds is stored. */
  lemma QueueIsKnown(s: Sys, w: nat)
    requires Inv(s) && PcOf(s, w).Busy? && PcOf(s, w).queue != []
    ensures Known(s.inbox.records, PcOf(s, w).queue[0])
  {
    assert GoodPc(s.replicas[w], s.inbox.records, s.log);
  }

  lemma HeadIsValid(s: Sys, w: nat)
    requires Inv(s) && PcOf(s, w).Busy? && PcOf(s, w).queue != []
    ensures IsUuid(PcOf(s, w).queue[0].tenantId)
  {
    QueueIsKnown(s, w);
    var q := PcOf(s, w).queue[0];
    var i :| 0 <= i < |s.inbox.records| && Core(s.inbox.records[i]) == Core(q);
    assert Inbox.GoodSignal(s.inbox.records[i]);
    assert Core(q).tenantId == q.tenantId && Core(s.inbox.records[i]).tenantId == s.inbox.records[i].tenantId;
  }

  lemma MarkingProcesses(b: Inbox.Inbox<Payload>, q: Signal, now: int)
    requires Known(b.records, q)
    ensures IsProcessed(Inbox.Do(b, Inbox.MarkSignals(q.tenantId, {q.id}, now)), q.id)
  {
    var i :| 0 <= i < |b.records| && Core(b.records[i]) == Core(q);
    assert b.records[i].id == q.id && b.records[i].tenantId == q.tenantId;
    assert Inbox.Do(b, Inbox.MarkSignals(q.tenantId, {q.id}, now)).records[i].id == q.id;
  }

  /** Marking the head of a queue processes its record. */
  lemma MarkProcesses(s: Sys, w: nat)
    requires At(s, w, ToMark) && Known(s.inbox.records, PcOf(s, w).queue[0])
    ensures IsProcessed(Do(s, MarkHead(w)).inbox, PcOf(s, w).queue[0].id)
    ensures PcOf(Do(s, MarkHead(w)), w) == Take(PcOf(s, w).queue[1..])
  {
    MarkingProcesses(s.inbox, PcOf(s, w).queue[0], s.now);
  }

  /** Marking after any execution from a reachable state. */
  lemma MarkAfterProcesses(start: Sys, labels: seq<Label>, s: Sys, w: nat)
    requires Reached(start, labels, s) && Inv(start) && At(s, w, ToMark)
    ensures IsProcessed(Do(s, MarkHead(w)).inbox, PcOf(s, w).queue[0].id)
    ensures PcOf(Do(s, MarkHead(w)), w) == Take(PcOf(s, w).queue[1..])
  {
    ExecutionKeepsInv(start, labels, s);
    QueueIsKnown(s, w);
    MarkProcesses(s, w);
  }

  class SignalIngestionWorker {
    const id: nat
    const claimOwner: string
    const claimLeaseMs: int
    const inbox: Inbox.InMemorySignalEventsRepository<Payload>
    const outbox: InMemoryOutboxRepository<Body>

    ghost predicate Valid()
      reads inbox, outbox
    {
      inbox.Valid() && outbox.Valid()
    }

    /** The repositories are in this state of the protocol. */
    ghost predicate Holds(s: Sys)
      reads inbox, outbox
    {
      Valid() && s.inbox == inbox.Contents() && s.log == outbox.Log()
    }

    constructor (id: nat, owner: string, leaseMs: int, inbox: Inbox.InMemorySignalEventsRepository<Payload>,
                 outbox: InMemoryOutboxRepository<Body>)
      ensures this.id == id && this.claimOwner == owner && this.claimLeaseMs == leaseMs
      ensures this.inbox == inbox && this.outbox == outbox
    {
      this.id, this.claimOwner, this.claimLeaseMs, this.inbox, this.outbox := id, owner, leaseMs, inbox, outbox;
    }

    // ── One repository call, one step of the protocol, whoever makes it ────

    method Ingest(params: Inbox.Params<Payload>, s: Sys) returns (s': Sys)
      requires Holds(s)
      modifies inbox
      ensures Holds(s') && s' == Do(s, Arrive(params))
    {
      var r := inbox.IngestSignal(params);
      s' := InboxStep(s, Inbox.Ingest(params));
    }

    /** The batch is empty when the claim throws. */
    method Claim(w: nat, tenantId: string, t: Inbox.SignalType, limit: nat, owner: string, leaseMs: int, s: Sys)
      returns (threw: bool, s': Sys)
      requires Holds(s) && PcOf(s, w).Idle?
      modifies inbox
      ensures Holds(s') && s' == Do(s, ClaimBatch(w, tenantId, t, limit, owner, leaseMs))
      ensures PcOf(s', w) == Take(Snapshots(s, Inbox.ClaimSignals(tenantId, t, limit, owner, leaseMs, s.now)))
      ensures threw ==> PcOf(s', w).Idle?
      ensures threw <==> !Inbox.ValidClaim(tenantId, owner, leaseMs)
    {
      var op: Inbox.Op<Payload> := Inbox.ClaimSignals(tenantId, t, limit, owner, leaseMs, s.now);
      var r := inbox.ClaimUnprocessed(tenantId, t, limit, owner, leaseMs, s.now);
      threw := r.None?;
      s' := Goto(InboxStep(s, op), w, Take(Snapshots(s, op)));
    }

    /** False when validation throws. */
    method Store(c: Command<Body>, s: Sys) returns (ok: bool, s': Sys)
      requires Holds(s)
      modifies outbox
      ensures Holds(s') && s' == if ok then EnqueueStep(s, c) else s
      ensures ok <==> ValidIdentity(c.identity)
    {
      var stored := outbox.Enqueue(c, s.now);
      ok := stored.Ok?;
      s' := if ok then EnqueueStep(s, c) else s;
    }

    method StoreRouted(w: nat, grade: Option<int>, s: Sys) returns (ok: bool, s': Sys)
      requires Holds(s) && At(s, w, ToRoute)
      modifies outbox
      ensures Holds(s') && s' == if ok then Do(s, RouteHead(w, grade)) else s
      ensures IsUuid(PcOf(s, w).queue[0].tenantId) ==> ok
    {
      if IsUuid(PcOf(s, w).queue[0].tenantId) {
        EventsAreAccepted(PcOf(s, w).queue[0], grade);
      }
      var queue := PcOf(s, w).queue;
      RouteIs(s, w, grade);
      ok, s' := Store(RouteCommand(queue[0], grade), s);
      if ok {
        s' := Goto(s', w, Busy(queue, ToRequest));
      }
    }

    method StoreRequest(w: nat, s: Sys) returns (ok: bool, s': Sys)
      requires Holds(s) && At(s, w, ToRequest)
      modifies outbox
      ensures Holds(s') && s' == if ok then Do(s, RequestHead(w)) else s
      ensures IsUuid(PcOf(s, w).queue[0].tenantId) ==> ok
    {
      if IsUuid(PcOf(s, w).queue[0].tenantId) {
        EventsAreAccepted(PcOf(s, w).queue[0], None);
      }
      var queue := PcOf(s, w).queue;
      RequestIs(s, w);
      ok, s' := Store(RequestCommand(queue[0]), s);
      if ok {
        s' := Goto(s', w, Busy(queue, ToMark));
      }
    }

    method Mark(w: nat, s: Sys) returns (s': Sys)
      requires Holds(s) && At(s, w, ToMark)
      modifies inbox
      ensures Holds(s') && s' == Do(s, MarkHead(w))
    {
      var queue := PcOf(s, w).queue;
      assert (set i | i in [queue[0].id]) == {queue[0].id};
      inbox.MarkProcessed(queue[0].tenantId, [queue[0].id], s.now);
      s' := Do(s, MarkHead(w));
    }

    method Release(w: nat, owner: string, s: Sys) returns (s': Sys)
      requires Holds(s) && PcOf(s, w).Busy? && PcOf(s, w).queue != []
      modifies inbox
      ensures Holds(s') && s' == Do(s, FailHead(w, owner, true))
    {
      var queue := PcOf(s, w).queue;
      assert (set i | i in [queue[0].id]) == {queue[0].id};
      inbox.ReleaseClaims(queue[0].tenantId, [queue[0].id], owner);
      s' := Do(s, FailHead(w, owner, true));
    }

    method Consume(row: nat, s: Sys) returns (s': Sys)
      requires Holds(s) && 1 <= row <= |s.log|
      modifies outbox
      ensures Holds(s') && s' == Do(s, Publish(row))
    {
      var done := outbox.MarkConsumed(s.log[row - 1].identity.tenantId, row, s.now);
      s' := s.(log := Consumed(s.log, row, s.now));
    }

    /** Any step of anyone, as repository calls; false when it cannot be made. */
    method Perform(l: Label, s: Sys) returns (done: bool, s': Sys)
      requires Holds(s)
      modifies inbox, outbox
      ensures Holds(s') && s' == if done then Do(s, l) else s
    {
      done, s' := true, s;
      match l {
        case Arrive(params) =>
          s' := Ingest(params, s);
        case ClaimBatch(w, tenantId, t, limit, owner, leaseMs) =>
          if PcOf(s, w).Idle? {
            var threw;
            threw, s' := Claim(w, tenantId, t, limit, owner, leaseMs, s);
          }
        case RouteHead(w, grade) =>
          if At(s, w, ToRoute) {
            done, s' := StoreRouted(w, grade, s);
          }
        case RequestHead(w) =>
          if At(s, w, ToRequest) {
            done, s' := StoreRequest(w, s);
          }
        case MarkHead(w) =>
          if At(s, w, ToMark) {
            s' := Mark(w, s);
          }
        case FailHead(w, owner, releases) =>
          if PcOf(s, w).Busy? && PcOf(s, w).queue != [] {
            if releases {
              s' := Release(w, owner, s);
            } else {
              s' := Goto(s, w, Take(PcOf(s, w).queue[1..]));
            }
          }
        case Crash(w) =>
          s' := Goto(s, w, Idle);
        case Publish(row) =>
          if 1 <= row <= |s.log| {
            s' := Consume(row, s);
          }
        case Other(command) =>
          done, s' := Store(command, s);
        case Tick(elapsed) =>
          s' := s.(now := s.now + elapsed);
      }
    }

    lemma RouteIs(s: Sys, w: nat, grade: Option<int>)
      requires At(s, w, ToRoute)
      ensures Do(s, RouteHead(w, grade))
           == Goto(EnqueueStep(s, RouteCommand(PcOf(s, w).queue[0], grade)), w, Busy(PcOf(s, w).queue, ToRequest))
    {
    }

    lemma RequestIs(s: Sys, w: nat)
      requires At(s, w, ToRequest)
      ensures Do(s, RequestHead(w))
           == Goto(EnqueueStep(s, RequestCommand(PcOf(s, w).queue[0])), w, Busy(PcOf(s, w).queue, ToMark))
    {
    }

    /** What everyone else does while this replica waits. */
    method Await(start: Sys, ghost labels: seq<Label>, s: Sys, others: seq<Label>)
      returns (ghost more: seq<Label>, s': Sys)
      requires Holds(s) && Reached(start, labels, s) && OthersOnly(others, id)
      modifies inbox, outbox
      ensures Holds(s') && PcOf(s', id) == PcOf(s, id) && Reached(start, more, s') && (others == [] ==> s' == s)
    {
      more, s' := labels, s;
      var i := 0;
      while i < |others|
        invariant i <= |others| && Holds(s') && PcOf(s', id) == PcOf(s, id) && Reached(start, more, s')
        invariant others == [] ==> s' == s
      {
        assert others[i] in others;
        Extend(start, more, s', others[i]);
        OthersLeaveMe(s', others[i], id);
        var done;
        done, s' := Perform(others[i], s');
        more := if done then more + [others[i]] else more;
        i := i + 1;
      }
    }

    /** A throw that leaves the replica is the protocol's crash. */
    method Throw(start: Sys, ghost labels: seq<Label>, s: Sys) returns (ghost more: seq<Label>, s': Sys)
      requires Holds(s) && Reached(start, labels, s)
      ensures Holds(s') && PcOf(s', id).Idle? && Reached(start, more, s')
    {
      Extend(start, labels, s, Crash(id));
      more, s' := labels + [Crash(id)], Goto(s, id, Idle);
    }

    // ── One signal ─────────────────────────────────────────────────────────

    /** `route`: others act, then the routed row is stored, unless something throws. */
    method RouteFirst(luck: Luck, s: Sys) returns (done: bool, ghost labels: seq<Label>, s': Sys)
      requires Holds(s) && At(s, id, ToRoute) && FairLuck(luck, id)
      modifies inbox, outbox
      ensures Holds(s') && Reached(s, labels, s')
      ensures PcOf(s', id) == Busy(PcOf(s, id).queue, if done then ToRequest else ToRoute)
      ensures IsUuid(PcOf(s, id).queue[0].tenantId) ==> (done <==> luck.route)
    {
      labels, s' := Await(s, [], s, luck.beforeRoute);
      done := luck.route;
      if done {
        Extend(s, labels, s', RouteHead(id, luck.grade));
        done, s' := StoreRouted(id, luck.grade, s');
        labels := if done then labels + [RouteHead(id, luck.grade)] else labels;
      }
    }

    /** The downstream request. */
    method RequestNext(luck: Luck, s: Sys) returns (done: bool, ghost labels: seq<Label>, s': Sys)
      requires Holds(s) && At(s, id, ToRequest) && FairLuck(luck, id)
      modifies inbox, outbox
      ensures Holds(s') && Reached(s, labels, s')
      ensures PcOf(s', id) == Busy(PcOf(s, id).queue, if done then ToMark else ToRequest)
      ensures IsUuid(PcOf(s, id).queue[0].tenantId) ==> (done <==> luck.request)
    {
      labels, s' := Await(s, [], s, luck.beforeRequest);
      done := luck.request;
      if done {
        Extend(s, labels, s', RequestHead(id));
        done, s' := StoreRequest(id, s');
        labels := if done then labels + [RequestHead(id)] else labels;
      }
    }

    /** Only then the mark. */
    method MarkLast(luck: Luck, s: Sys) returns (done: bool, ghost labels: seq<Label>, s': Sys)
      requires Holds(s) && At(s, id, ToMark) && FairLuck(luck, id) && Inv(s)
      modifies inbox, outbox
      ensures Holds(s') && Reached(s, labels, s')
      ensures PcOf(s', id) == if done then Take(PcOf(s, id).queue[1..]) else PcOf(s, id)
      ensures done ==> IsProcessed(s'.inbox, PcOf(s, id).queue[0].id)
      ensures done == luck.mark
    {
      labels, s' := Await(s, [], s, luck.beforeMark);
      done := luck.mark;
      if done {
        MarkAfterProcesses(s, labels, s', id);
        Extend(s, labels, s', MarkHead(id));
        s' := Mark(id, s');
        labels := labels + [MarkHead(id)];
      }
    }

    /** `processSignal` up to where a call throws, and only there: route, request, mark, in this order. */
    method ProcessSignal(luck: Luck, s: Sys) returns (done: bool, ghost labels: seq<Label>, s': Sys)
      requires Holds(s) && At(s, id, ToRoute) && FairLuck(luck, id) && Inv(s)
      modifies inbox, outbox
      ensures Holds(s') && Reached(s, labels, s')
      ensures done ==> PcOf(s', id) == Take(PcOf(s, id).queue[1..]) && IsProcessed(s'.inbox, PcOf(s, id).queue[0].id)
      ensures !done ==> PcOf(s', id).Busy? && PcOf(s', id).queue == PcOf(s, id).queue
      ensures done <==> Lucky(luck)
    {
      HeadIsValid(s, id);
      done, labels, s' := RouteFirst(luck, s);
      if done {
        ghost var first, mid := labels, s';
        done, labels, s' := RequestNext(luck, s');
        Join(s, first, mid, labels, s');
        labels := first + labels;
      }
      if done {
        ghost var first, mid := labels, s';
        ExecutionKeepsInv(s, labels, s');
        done, labels, s' := MarkLast(luck, s');
        Join(s, first, mid, labels, s');
        labels := first + labels;
      }
    }

    /** One turn of the loop: a failed signal is released, and a release that throws ends everything. */
    method HandleSignal(luck: Luck, s: Sys) returns (fate: Fate, ghost labels: seq<Label>, s': Sys)
      requires Holds(s) && At(s, id, ToRoute) && FairLuck(luck, id) && Inv(s)
      modifies inbox, outbox
      ensures Holds(s') && Reached(s, labels, s')
      ensures PcOf(s', id) == if fate.Escaped? then Idle else Take(PcOf(s, id).queue[1..])
      ensures fate.Handled? ==> IsProcessed(s'.inbox, PcOf(s, id).queue[0].id)
      ensures (fate.Handled? <==> Lucky(luck)) && (fate.Escaped? <==> !Lucky(luck) && !luck.release)
    {
      var done;
      done, labels, s' := ProcessSignal(luck, s);
      if done {
        return Handled, labels, s';
      }
      labels, s' := Await(s, labels, s', luck.beforeRelease);
      if luck.release {
        Extend(s, labels, s', FailHead(id, claimOwner, true));
        s' := Release(id, claimOwner, s');
        return GivenBack, labels + [FailHead(id, claimOwner, true)], s';
      }
      labels, s' := Throw(s, labels, s');
      return Escaped, labels, s';
    }

    // ── The loops ──────────────────────────────────────────────────────────

    /** Where the batch stands: this much of it is left, and these signals are processed. */
    ghost predicate Going(start: Sys, labels: seq<Label>, s: Sys, left: seq<Signal>, processed: seq<nat>)
      reads inbox, outbox
    {
      match s
      case Sys(b, _, _, _) =>
        && Holds(s) && Inv(s) && PcOf(s, id) == Take(left) && Reached(start, labels, s)
        && forall n | n in processed :: IsProcessed(b, n)
    }

    /** The first signals of the batch stand in the one list or the other, as a call for them threw or not. */
    ghost predicate InOneList(batch: seq<Signal>, luck: seq<Luck>, i: nat, processed: seq<nat>, failures: seq<nat>) {
      && i <= |batch| && |luck| == |batch| && |processed| + |failures| == i
      && (forall k | 0 <= k < i :: if Lucky(luck[k]) then batch[k].id in processed else batch[k].id in failures)
      && ((forall k | 0 <= k < i :: Lucky(luck[k])) ==> failures == [])
    }

    /** The batch is worked off up to its i-th signal. */
    ghost predicate Through(start: Sys, labels: seq<Label>, s: Sys, batch: seq<Signal>, luck: seq<Luck>, i: nat,
                            processed: seq<nat>, failures: seq<nat>)
      reads inbox, outbox
    {
      match s
      case Sys(_, _, _, _) =>
        i <= |batch| && Going(start, labels, s, batch[i..], processed) && InOneList(batch, luck, i, processed, failures)
    }

    /** Where the loop stands: through with so many signals, or thrown out of the batch. */
    ghost predicate Standing(threw: bool, start: Sys, labels: seq<Label>, s: Sys, batch: seq<Signal>, luck: seq<Luck>,
                             i: nat, processed: seq<nat>, failures: seq<nat>)
      reads inbox, outbox
    {
      match threw
      case true => Going(start, labels, s, [], processed) && OneEscapes(luck)
      case false => Through(start, labels, s, batch, luck, i, processed, failures)
    }

    /** For some signal of the batch both a call and the release throw. */
    ghost predicate OneEscapes(luck: seq<Luck>) {
      exists k :: 0 <= k < |luck| && !Lucky(luck[k]) && !luck[k].release
    }

    ghost predicate AllFair(luck: seq<Luck>) {
      forall k | 0 <= k < |luck| :: FairLuck(luck[k], id)
    }

    /** One turn, seen from the start of the batch. */
    method Turn(luck: Luck, ghost start: Sys, ghost before: seq<Label>, ghost left: seq<Signal>,
                ghost processed: seq<nat>, s: Sys)
      returns (fate: Fate, ghost labels: seq<Label>, s': Sys)
      requires Going(start, before, s, left, processed) && left != [] && FairLuck(luck, id)
      modifies inbox, outbox
      ensures Going(start, labels, s', if fate.Escaped? then [] else left[1..],
                    if fate.Handled? then processed + [left[0].id] else processed)
      ensures (fate.Handled? <==> Lucky(luck)) && (fate.Escaped? <==> !Lucky(luck) && !luck.release)
    {
      fate, labels, s' := HandleSignal(luck, s);
      StillProcessed(s, labels, s', processed);
      ExecutionKeepsInv(s, labels, s');
      Join(start, before, s, labels, s');
      labels := before + labels;
    }

    /** One turn, its signal noted in one of the lists. */
    method TurnAndNote(luck: seq<Luck>, ghost start: Sys, ghost before: seq<Label>, batch: seq<Signal>, i: nat,
                       processed: seq<nat>, failures: seq<nat>, s: Sys)
      returns (threw: bool, processed': seq<nat>, failures': seq<nat>, ghost labels: seq<Label>, s': Sys)
      requires i < |batch| && Standing(false, start, before, s, batch, luck, i, processed, failures) && AllFair(luck)
      modifies inbox, outbox
      ensures Standing(threw, start, labels, s', batch, luck, i + 1, processed', failures')
    {
      assert batch[i..][0] == batch[i] && batch[i..][1..] == batch[i + 1..];
      var fate;
      fate, labels, s' := Turn(luck[i], start, before, batch[i..], processed, s);
      threw := fate.Escaped?;
      processed' := if fate.Handled? then processed + [batch[i].id] else processed;
      failures' := if fate.Handled? || threw then failures else failures + [batch[i].id];
      OneMoreNoted(batch, luck, i, processed, failures, fate);
    }

    lemma OneMoreNoted(batch: seq<Signal>, luck: seq<Luck>, i: nat, processed: seq<nat>, failures: seq<nat>, fate: Fate)
      requires i < |batch| && InOneList(batch, luck, i, processed, failures)
      requires (fate.Handled? <==> Lucky(luck[i])) && (fate.Escaped? <==> !Lucky(luck[i]) && !luck[i].release)
      ensures if fate.Escaped? then OneEscapes(luck)
              else InOneList(batch, luck, i + 1, if fate.Handled? then processed + [batch[i].id] else processed,
                             if fate.Handled? then failures else failures + [batch[i].id])
    {
    }

    /**
     * The loop over one claimed batch. Every signal ends in one of the two
     * result lists, and what is listed as processed is processed.
     */
    method ProcessBatch(batch: seq<Signal>, luck: seq<Luck>, s: Sys)
      returns (threw: bool, processed: seq<nat>, failures: seq<nat>, ghost labels: seq<Label>, s': Sys)
      requires Holds(s) && PcOf(s, id) == Take(batch) && Inv(s)
      requires |luck| == |batch| && AllFair(luck)
      modifies inbox, outbox
      ensures Holds(s') && PcOf(s', id).Idle? && Reached(s, labels, s')
      ensures if threw then OneEscapes(luck) else InOneList(batch, luck, |batch|, processed, failures)
      ensures forall n | n in processed :: IsProcessed(s'.inbox, n)
    {
      threw, processed, failures, labels, s' := false, [], [], [], s;
      var i := 0;
      BatchBegins(s, batch, luck);
      while i < |batch| && !threw
        invariant Standing(threw, s, labels, s', batch, luck, i, processed, failures)
      {
        threw, processed, failures, labels, s' := TurnAndNote(luck, s, labels, batch, i, processed, failures, s');
        i := i + 1;
      }
      BatchEnds(threw, s, labels, s', batch, luck, i, processed, failures);
    }

    lemma BatchBegins(s: Sys, batch: seq<Signal>, luck: seq<Luck>)
      requires Holds(s) && PcOf(s, id) == Take(batch) && Inv(s) && |luck| == |batch|
      ensures Standing(false, s, [], s, batch, luck, 0, [], [])
    {
      assert batch[0..] == batch;
    }

    lemma BatchEnds(threw: bool, start: Sys, labels: seq<Label>, s: Sys, batch: seq<Signal>, luck: seq<Luck>, i: nat,
                    processed: seq<nat>, failures: seq<nat>)
      requires Standing(threw, start, labels, s, batch, luck, i, processed, failures) && (threw || i >= |batch|)
      ensures Holds(s) && PcOf(s, id).Idle? && Reached(start, labels, s)
      ensures if threw then OneEscapes(luck) else InOneList(batch, luck, |batch|, processed, failures)
      ensures forall n | n in processed :: IsProcessed(s.inbox, n)
    {
    }

    lemma StillProcessed(start: Sys, labels: seq<Label>, s: Sys, processed: seq<nat>)
      requires Reached(start, labels, s) && Inv(start) && forall n | n in processed :: IsProcessed(start.inbox, n)
      ensures forall n | n in processed :: IsProcessed(s.inbox, n)
    {
      forall n | n in processed
        ensures IsProcessed(s.inbox, n)
      {
        RunKeepsProcessed(start, labels, n);
      }
    }

    /** One signal type: others act, then the claim and the batch. */
    method ProcessType(tenantId: string, t: Inbox.SignalType, limit: nat, others: seq<Label>, luck: nat -> Luck, s: Sys)
      returns (threw: bool, processed: seq<nat>, failures: seq<nat>, ghost labels: seq<Label>, s': Sys)
      requires Holds(s) && PcOf(s, id).Idle? && Inv(s) && OthersOnly(others, id)
      requires forall k: nat :: FairLuck(luck(k), id)
      modifies inbox, outbox
      ensures Holds(s') && PcOf(s', id).Idle? && Reached(s, labels, s')
      ensures forall n | n in processed :: IsProcessed(s'.inbox, n)
      ensures threw ==> !Inbox.ValidClaim(tenantId, claimOwner, claimLeaseMs) || MayEscape(luck)
      ensures AllLucky(luck) ==> failures == []
      ensures AllLucky(luck) && others == [] ==> HandedAre(s, tenantId, t, limit, processed)
    {
      processed, failures := [], [];
      ghost var claimed;
      var batch;
      threw, batch, claimed, labels, s' := ClaimForType(tenantId, t, limit, others, s);
      if batch != [] {
        ghost var first, mid := labels, s';
        var lucks := seq(|batch|, k requires 0 <= k < |batch| => luck(k));
        threw, processed, failures, labels, s' := ProcessBatch(batch, lucks, s');
        Join(s, first, mid, labels, s');
        labels := first + labels;
        BatchTold(claimed, tenantId, t, limit, batch, lucks, luck, threw, processed, failures);
      }
    }

    /** Others act, then the claim; the batch is empty where it throws. */
    method ClaimForType(tenantId: string, t: Inbox.SignalType, limit: nat, others: seq<Label>, s: Sys)
      returns (threw: bool, batch: seq<Signal>, ghost claimed: Sys, ghost labels: seq<Label>, s': Sys)
      requires Holds(s) && PcOf(s, id).Idle? && Inv(s) && OthersOnly(others, id)
      modifies inbox, outbox
      ensures Holds(s') && PcOf(s', id) == Take(batch) && Inv(s') && Reached(s, labels, s')
      ensures batch == Snapshots(claimed, Inbox.ClaimSignals(tenantId, t, limit, claimOwner, claimLeaseMs, claimed.now))
      ensures others == [] ==> claimed == s
      ensures threw <==> !Inbox.ValidClaim(tenantId, claimOwner, claimLeaseMs)
    {
      labels, s' := Await(s, [], s, others);
      ghost var claim := ClaimBatch(id, tenantId, t, limit, claimOwner, claimLeaseMs);
      Extend(s, labels, s', claim);
      claimed := s';
      threw, s' := Claim(id, tenantId, t, limit, claimOwner, claimLeaseMs, s');
      labels := labels + [claim];
      ExecutionKeepsInv(s, labels, s');
      batch := if PcOf(s', id).Busy? then PcOf(s', id).queue else [];
    }

    ghost predicate AllLucky(luck: nat -> Luck) {
      forall k: nat :: Lucky(luck(k))
    }

    ghost predicate MayEscape(luck: nat -> Luck) {
      exists k: nat :: !Lucky(luck(k)) && !luck(k).release
    }

    /** Every signal a claim in this state hands out is among those processed. */
    ghost predicate HandedAre(s: Sys, tenantId: string, t: Inbox.SignalType, limit: nat, processed: seq<nat>) {
      var op: Inbox.Op<Payload> := Inbox.ClaimSignals(tenantId, t, limit, claimOwner, claimLeaseMs, s.now);
      forall k | 0 <= k < |Inbox.Handed(s.inbox, op)| :: Inbox.Handed(s.inbox, op)[k].id in processed
    }

    lemma BatchTold(s: Sys, tenantId: string, t: Inbox.SignalType, limit: nat, batch: seq<Signal>, lucks: seq<Luck>,
                    luck: nat -> Luck, threw: bool, processed: seq<nat>, failures: seq<nat>)
      requires batch == Snapshots(s, Inbox.ClaimSignals(tenantId, t, limit, claimOwner, claimLeaseMs, s.now))
      requires |lucks| == |batch| && forall k | 0 <= k < |lucks| :: lucks[k] == luck(k)
      requires if threw then OneEscapes(lucks) else InOneList(batch, lucks, |batch|, processed, failures)
      ensures threw ==> MayEscape(luck)
      ensures AllLucky(luck) ==> failures == [] && HandedAre(s, tenantId, t, limit, processed)
    {
      var op: Inbox.Op<Payload> := Inbox.ClaimSignals(tenantId, t, limit, claimOwner, claimLeaseMs, s.now);
      if threw {
        var k :| 0 <= k < |lucks| && !Lucky(lucks[k]) && !lucks[k].release;
        assert !Lucky(luck(k)) && !luck(k).release;
      } else if AllLucky(luck) {
        forall k | 0 <= k < |Inbox.Handed(s.inbox, op)|
          ensures Inbox.Handed(s.inbox, op)[k].id in processed
        {
          assert batch[k].id == Inbox.Handed(s.inbox, op)[k].id && Lucky(lucks[k]);
        }
      }
    }

    /** The loop over the signal types. */
    method ProcessTenant(tenantId: string, limit: nat, others: nat -> seq<Label>, luck: nat -> nat -> Luck, s: Sys)
      returns (threw: bool, processed: seq<nat>, failures: seq<nat>, ghost labels: seq<Label>, s': Sys)
      requires Holds(s) && PcOf(s, id).Idle? && Inv(s)
      requires forall t: nat :: OthersOnly(others(t), id)
      requires forall t: nat, k: nat :: FairLuck(luck(t)(k), id)
      modifies inbox, outbox
      ensures Holds(s') && PcOf(s', id).Idle? && Reached(s, labels, s')
      ensures forall n | n in processed :: IsProcessed(s'.inbox, n)
      ensures threw ==> !Inbox.ValidClaim(tenantId, claimOwner, claimLeaseMs) || exists t: nat :: MayEscape(luck(t))
      ensures (forall t: nat :: AllLucky(luck(t))) ==> failures == []
    {
      threw, processed, failures, labels, s' := false, [], [], [], s;
      var t := 0;
      while t < |SIGNAL_TYPES| && !threw
        invariant t <= |SIGNAL_TYPES| && Holds(s') && PcOf(s', id).Idle? && Inv(s') && Reached(s, labels, s')
        invariant forall n | n in processed :: IsProcessed(s'.inbox, n)
        invariant threw ==> !Inbox.ValidClaim(tenantId, claimOwner, claimLeaseMs) || exists t: nat :: MayEscape(luck(t))
        invariant (forall t: nat :: AllLucky(luck(t))) ==> failures == []
      {
        ghost var first, mid := labels, s';
        var done, failed;
        threw, done, failed, labels, s' := ProcessType(tenantId, SIGNAL_TYPES[t], limit, others(t), luck(t), s');
        StillProcessed(mid, labels, s', processed);
        ExecutionKeepsInv(mid, labels, s');
        Join(s, first, mid, labels, s');
        labels := first + labels;
        processed, failures := processed + done, failures + failed;
        t := t + 1;
      }
    }
  }
}
