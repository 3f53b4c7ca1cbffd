/**
 * The durable signal inbox (`InMemorySignalEventsRepository`,
 * packages/db/src/signal-events-repository.ts): deduplicating ingest behind a
 * set of joined keys, leased first-in-first-out claiming, marking, releasing.
 * A payload is any value.
 */
module SignalInbox {
  import opened Text
  import Listing
  import Outbox

  datatype SignalType = Competitive | Community | Icp | Product | Market | Internal

  datatype Signal<P> = Signal(
    id: nat,
    tenantId: string,
    signalType: SignalType,
    source: string,
    externalId: Option<string>,
    payload: P,
    processedAt: Option<int>,
    leaseOwner: Option<string>,
    leaseExpiresAt: Option<int>,
    attempts: nat)

  type Records<P> = seq<Signal<P>>

  // ── Deduplication ────────────────────────────────────────────────────────

  datatype Params<P> = Params(
    tenantId: string,
    signalType: SignalType,
    source: string,
    externalId: Option<string>,
    payload: P)

  /** An external id that takes part in deduplication: present and, as JavaScript truth has it, not empty. */
  predicate Deduplicates(externalId: Option<string>) {
    externalId.Some? && externalId.value != ""
  }

  predicate SameExternal<P>(r: Signal<P>, tenantId: string, source: string, externalId: Option<string>) {
    r.tenantId == tenantId && r.source == source && r.externalId == externalId
  }

  /** Position of the first record with these names; |records| when there is none. */
  function FindExternal<P>(records: Records<P>, tenantId: string, source: string, externalId: Option<string>): (i: nat)
    ensures i <= |records|
    ensures i < |records| ==> SameExternal(records[i], tenantId, source, externalId)
    ensures forall j | 0 <= j < i :: !SameExternal(records[j], tenantId, source, externalId)
  {
    if records == [] || SameExternal(records[0], tenantId, source, externalId) then 0
    else 1 + FindExternal(records[1..], tenantId, source, externalId)
  }

  /** The joined key. Neither a source nor an external id need be free of colons, so it is not injective. */
  function ExternalKey(tenantId: string, source: string, externalId: string): string {
    tenantId + [':'] + source + [':'] + externalId
  }

  lemma ExternalKeysCollide(tenantId: string)
    ensures ExternalKey(tenantId, "a:b", "c") == ExternalKey(tenantId, "a", "b:c")
  {
    var end := [':', 'a', ':', 'b', ':', 'c'];
    assert ExternalKey(tenantId, "a:b", "c") == tenantId + end;
    assert ExternalKey(tenantId, "a", "b:c") == tenantId + end;
  }

  /** Every record that takes part in deduplication has its key in the set; the set may hold more. */
  ghost predicate Covers<P>(index: set<string>, records: Records<P>) {
    forall i | 0 <= i < |records| && Deduplicates(records[i].externalId) ::
      ExternalKey(records[i].tenantId, records[i].source, records[i].externalId.value) in index
  }

  // ── The inbox as a value ─────────────────────────────────────────────────

  datatype Inbox<P> = Inbox(records: Records<P>, sequence: nat)

  function Fresh<P>(id: nat, p: Params<P>): Signal<P> {
    Signal(id, p.tenantId, p.signalType, p.source, p.externalId, p.payload, None, None, None, 0)
  }

  /** Where the parameters are found by a linear scan, if they take part in deduplication. */
  function Duplicate<P>(records: Records<P>, p: Params<P>): nat {
    if Deduplicates(p.externalId) then FindExternal(records, p.tenantId, p.source, p.externalId) else |records|
  }

  lemma DuplicateMeansStored<P>(records: Records<P>, p: Params<P>)
    ensures Duplicate(records, p) < |records| <==>
              Deduplicates(p.externalId)
              && exists q :: q in records && SameExternal(q, p.tenantId, p.source, p.externalId)
  {
    if Duplicate(records, p) < |records| {
      assert records[Duplicate(records, p)] in records;
    }
  }

  /** An empty source is refused, but only after a number was drawn for it. */
  function Ingested<P>(b: Inbox<P>, p: Params<P>): Inbox<P> {
    if !Outbox.IsUuid(p.tenantId) || Duplicate(b.records, p) < |b.records| then b
    else if p.source == "" then b.(sequence := b.sequence + 1)
    else Inbox(b.records + [Fresh(b.sequence + 1, p)], b.sequence + 1)
  }

  datatype IngestResult<P> = Invalid | Event(event: Signal<P>, isDuplicate: bool)

  /** What ingest answers; Invalid when it throws. */
  function Reply<P>(b: Inbox<P>, p: Params<P>): IngestResult<P> {
    if !Outbox.IsUuid(p.tenantId) then Invalid
    else if Duplicate(b.records, p) < |b.records| then Event(b.records[Duplicate(b.records, p)], true)
    else if p.source == "" then Invalid
    else Event(Fresh(b.sequence + 1, p), false)
  }

  /** A row with these names stands in the way of an insert: the unique index covers every id that is not NULL. */
  predicate Conflicts<P>(records: Records<P>, p: Params<P>) {
    p.externalId.Some? && FindExternal(records, p.tenantId, p.source, p.externalId) < |records|
  }

  /**
   * The Postgres form: insert unless that conflicts, then look the conflicting
   * row up, but only under an id that is not empty; a throw rolls back. Either
   * way the table's sequence has moved.
   */
  function SqlIngest<P>(b: Inbox<P>, p: Params<P>): (IngestResult<P>, Inbox<P>) {
    var drawn := b.(sequence := b.sequence + 1);
    if !Outbox.IsUuid(p.tenantId) then (Invalid, b)
    else if !Conflicts(b.records, p) then
      if p.source == "" then (Invalid, drawn)
      else (Event(Fresh(drawn.sequence, p), false), drawn.(records := b.records + [Fresh(drawn.sequence, p)]))
    else if p.externalId.value != "" then
      (Event(b.records[FindExternal(b.records, p.tenantId, p.source, p.externalId)], true), drawn)
    else (Invalid, drawn)
  }

  predicate Claimable<P>(r: Signal<P>, tenantId: string, t: SignalType, now: int) {
    && r.tenantId == tenantId && r.signalType == t && r.processedAt.None?
    && (r.leaseExpiresAt.None? || r.leaseExpiresAt.value <= now)
  }

  function ClaimList<P>(records: Records<P>, tenantId: string, t: SignalType, limit: nat, now: int): Records<P> {
    Listing.List(records, (r: Signal<P>) => Claimable(r, tenantId, t, now), (r: Signal<P>) => r.id, limit)
  }

  function Leased<P>(r: Signal<P>, owner: string, expiresAt: int): Signal<P> {
    r.(leaseOwner := Some(owner), leaseExpiresAt := Some(expiresAt), attempts := r.attempts + 1)
  }

  function AfterClaim<P(==)>(records: Records<P>, list: Records<P>, owner: string, expiresAt: int): (r: Records<P>)
    ensures |r| == |records|
  {
    seq(|records|, i requires 0 <= i < |records| =>
      if records[i] in list then Leased(records[i], owner, expiresAt) else records[i])
  }

  function Processed<P>(r: Signal<P>, tenantId: string, ids: set<nat>, now: int): Signal<P> {
    if r.tenantId == tenantId && r.id in ids && r.processedAt.None?
    then r.(processedAt := Some(now), leaseOwner := None, leaseExpiresAt := None)
    else r
  }

  function Released<P>(r: Signal<P>, tenantId: string, ids: set<nat>, owner: string): Signal<P> {
    if r.tenantId == tenantId && r.id in ids && r.processedAt.None? && r.leaseOwner == Some(owner)
    then r.(leaseOwner := None, leaseExpiresAt := None)
    else r
  }

  function Each<P>(records: Records<P>, f: Signal<P> -> Signal<P>): (r: Records<P>)
    ensures |r| == |records| && forall i | 0 <= i < |r| :: r[i] == f(records[i])
  {
    seq(|records|, i requires 0 <= i < |records| => f(records[i]))
  }

  datatype Op<P> =
    | Ingest(params: Params<P>)
    | ClaimSignals(tenantId: string, signalType: SignalType, limit: nat, owner: string, leaseMs: int, now: int)
    | MarkSignals(tenantId: string, ids: set<nat>, now: int)
    | ReleaseSignals(tenantId: string, ids: set<nat>, owner: string)

  predicate ValidClaim(tenantId: string, owner: string, leaseMs: int) {
    Outbox.IsUuid(tenantId) && 1 <= |owner| <= 255 && 1_000 <= leaseMs <= 15 * 60_000
  }

  /** The signals an operation hands to its caller to work on. */
  function Handed<P>(b: Inbox<P>, op: Op<P>): Records<P> {
    match op
    case ClaimSignals(tenantId, t, limit, owner, leaseMs, now) =>
      if ValidClaim(tenantId, owner, leaseMs) then ClaimList(b.records, tenantId, t, limit, now) else []
    case _ => []
  }

  function Do<P(==)>(b: Inbox<P>, op: Op<P>): Inbox<P> {
    match op
    case Ingest(params) => Ingested(b, params)
    case ClaimSignals(_, _, _, owner, leaseMs, now) =>
      b.(records := AfterClaim(b.records, Handed(b, op), owner, now + leaseMs))
    case MarkSignals(tenantId, ids, now) =>
      b.(records := Each(b.records, (r: Signal<P>) => Processed(r, tenantId, ids, now)))
    case ReleaseSignals(tenantId, ids, owner) =>
      b.(records := Each(b.records, (r: Signal<P>) => Released(r, tenantId, ids, owner)))
  }

  function Run<P(==)>(b: Inbox<P>, ops: seq<Op<P>>): Inbox<P>
    decreases |ops|
  {
    if ops == [] then b else Run(Do(b, ops[0]), ops[1..])
  }

  // ── Invariants ───────────────────────────────────────────────────────────

  /** Owner and expiry stand together, and never on a processed signal. */
  predicate GoodSignal<P>(r: Signal<P>) {
    && Outbox.IsUuid(r.tenantId) && r.source != ""
    && (r.leaseOwner.Some? <==> r.leaseExpiresAt.Some?)
    && (r.processedAt.Some? ==> r.leaseOwner.None?)
    && (r.leaseOwner.Some? ==> r.attempts > 0)
  }

  ghost predicate Sound<P>(b: Inbox<P>) {
    match b
    case Inbox(records, n) =>
      && (forall i | 0 <= i < |records| :: GoodSignal(records[i]) && 1 <= records[i].id <= n)
      && (forall i, j | 0 <= i < j < |records| :: records[i].id < records[j].id)
      && (forall i, j | 0 <= i < j < |records| && Deduplicates(records[j].externalId) ::
            !SameExternal(records[i], records[j].tenantId, records[j].source, records[j].externalId))
  }

  /**
   * The two forms of ingest answer alike and store alike exactly unless the
   * external id is present but empty and a signal of the same source with such
   * an id is stored: there the in-memory form stores another one and the
   * Postgres form throws.
   */
  lemma IngestFormsAgreeIff<P>(b: Inbox<P>, p: Params<P>)
    requires Sound(b)
    ensures SqlIngest(b, p).0 == Reply(b, p) && SqlIngest(b, p).1.records == Ingested(b, p).records
       <==> !(p.externalId == Some("") && exists q :: q in b.records && SameExternal(q, p.tenantId, p.source, Some("")))
  {
    var i := FindExternal(b.records, p.tenantId, p.source, p.externalId);
    if p.externalId == Some("") && i < |b.records| {
      assert GoodSignal(b.records[i]) && b.records[i] in b.records;
      assert |Ingested(b, p).records| == |b.records| + 1;
    }
  }

  /** What no operation ever changes in a stored signal. */
  ghost predicate SameSignal<P>(r: Signal<P>, s: Signal<P>) {
    && s.id == r.id && s.tenantId == r.tenantId && s.signalType == r.signalType
    && s.source == r.source && s.externalId == r.externalId && s.payload == r.payload
    && (r.processedAt.Some? ==> s == r)
  }

  /** The listing holds claimable stored records in id order, and passes over none that precedes one it holds. */
  lemma ClaimIsFifo<P>(b: Inbox<P>, tenantId: string, t: SignalType, limit: nat, now: int, r: Signal<P>)
    requires Sound(b)
    ensures var list := ClaimList(b.records, tenantId, t, limit, now);
            && (forall i, j | 0 <= i < j < |list| :: list[i].id < list[j].id) && |list| <= limit
            && (r in list ==> r in b.records && Claimable(r, tenantId, t, now))
            && (r in b.records && Claimable(r, tenantId, t, now) && r !in list ==>
                  |list| == limit && forall k | 0 <= k < limit :: list[k].id < r.id)
  {
    Listing.ListIsOrderedPrefix(b.records, (q: Signal<P>) => Claimable(q, tenantId, t, now), (q: Signal<P>) => q.id,
                                limit, r);
  }

  lemma HandedIsClaimable<P>(b: Inbox<P>, op: Op<P>, r: Signal<P>)
    requires Sound(b) && r in Handed(b, op)
    ensures op.ClaimSignals? && r in b.records && Claimable(r, op.tenantId, op.signalType, op.now)
  {
    ClaimIsFifo(b, op.tenantId, op.signalType, op.limit, op.now, r);
  }

  /**
   * Who is handed out, from the record's fields: every signal handed out is an
   * unprocessed one of the tenant and type whose lease is absent or has run
   * out, and such a signal is handed out unless the limit was used up on
   * signals of smaller id.
   */
  lemma ClaimFindsEligible<P>(b: Inbox<P>, tenantId: string, t: SignalType, limit: nat, owner: string, leaseMs: int,
                              now: int, r: Signal<P>)
    requires Sound(b) && Outbox.IsUuid(tenantId) && 1 <= |owner| <= 255 && 1_000 <= leaseMs <= 900_000
    ensures var list := Handed(b, ClaimSignals(tenantId, t, limit, owner, leaseMs, now));
            && |list| <= limit
            && (r in list ==>
                  && r in b.records && r.tenantId == tenantId && r.signalType == t && r.processedAt == None
                  && (r.leaseExpiresAt == None || r.leaseExpiresAt.value <= now))
            && (r in b.records && r.tenantId == tenantId && r.signalType == t && r.processedAt == None ==>
                  r.leaseExpiresAt == None || r.leaseExpiresAt.value <= now ==>
                    r in list || (|list| == limit && forall k | 0 <= k < limit :: list[k].id < r.id))
  {
    ClaimIsFifo(b, tenantId, t, limit, now, r);
  }

  /** A limit that is not smaller than the inbox cuts nothing. */
  lemma UnlimitedClaim<P>(b: Inbox<P>, tenantId: string, t: SignalType, limit: nat, now: int)
    requires Sound(b) && limit >= |b.records|
    ensures ClaimList(b.records, tenantId, t, limit, now)
         == Listing.Filter(b.records, (r: Signal<P>) => Claimable(r, tenantId, t, now))
  {
    var keep, key := (r: Signal<P>) => Claimable(r, tenantId, t, now), (r: Signal<P>) => r.id;
    Listing.FilterKeepsOrder(b.records, keep, key);
    Listing.SortOfAscending(Listing.Filter(b.records, keep), key);
    Listing.FilterIsShorter(b.records, keep);
  }

  /**
   * No signal is lost to a replica that stopped: after any calls, an
   * unprocessed signal whose lease is absent or has run out is handed out by
   * every claim with a large enough limit.
   */
  lemma NothingIsLost<P>(ops: seq<Op<P>>, i: nat, limit: nat, owner: string, leaseMs: int, now: int)
    requires var b := Run(Inbox([], 0), ops);
             && i < |b.records| <= limit && b.records[i].processedAt == None
             && (b.records[i].leaseExpiresAt == None || b.records[i].leaseExpiresAt.value <= now)
    requires 1 <= |owner| <= 255 && 1_000 <= leaseMs <= 900_000
    ensures var b := Run(Inbox([], 0), ops);
            var r := b.records[i];
            r in Handed(b, ClaimSignals(r.tenantId, r.signalType, limit, owner, leaseMs, now))
  {
    ReachableIsSound(ops);
    var b := Run(Inbox([], 0), ops);
    var r := b.records[i];
    assert GoodSignal(r);
    UnlimitedClaim(b, r.tenantId, r.signalType, limit, now);
    Listing.FilterMembers(b.records, (q: Signal<P>) => Claimable(q, r.tenantId, r.signalType, now), r);
  }

  /**
   * What a call does to a stored signal, field by field: a claim leases what it
   * hands out, a mark settles the named unprocessed signals of the tenant, a
   * release frees those its owner holds, and nothing else changes.
   */
  lemma CallChangesFields<P>(b: Inbox<P>, op: Op<P>, i: nat)
    requires Sound(b) && i < |b.records|
    ensures var r, s := b.records[i], Do(b, op).records[i];
            && (op.ClaimSignals? && r in Handed(b, op) ==>
                  s == r.(leaseOwner := Some(op.owner), leaseExpiresAt := Some(op.now + op.leaseMs),
                          attempts := r.attempts + 1))
            && (op.MarkSignals? && r.tenantId == op.tenantId && r.id in op.ids && r.processedAt == None ==>
                  s == r.(processedAt := Some(op.now), leaseOwner := None, leaseExpiresAt := None))
            && (op.ReleaseSignals? && r.processedAt == None && r.leaseOwner == Some(op.owner) ==>
                  r.tenantId == op.tenantId && r.id in op.ids ==> s == r.(leaseOwner := None, leaseExpiresAt := None))
            && (s != r ==>
                  || r in Handed(b, op)
                  || (op.MarkSignals? && r.tenantId == op.tenantId && r.id in op.ids && r.processedAt == None)
                  || (op.ReleaseSignals? && r.tenantId == op.tenantId && r.id in op.ids
                      && r.leaseOwner == Some(op.owner)))
  {
  }

  lemma ClaimedAreStored<P>(b: Inbox<P>, tenantId: string, t: SignalType, limit: nat, now: int)
    requires Sound(b)
    ensures var list := ClaimList(b.records, tenantId, t, limit, now);
            && (forall k | 0 <= k < |list| :: list[k] in b.records)
            && (forall k, l | 0 <= k < l < |list| :: list[k] != list[l])
  {
    var list := ClaimList(b.records, tenantId, t, limit, now);
    forall k | 0 <= k < |list| {
      ClaimIsFifo(b, tenantId, t, limit, now, list[k]);
    }
  }

  lemma DoChangesEachRecord<P>(b: Inbox<P>, op: Op<P>, i: nat)
    requires Sound(b) && i < |b.records|
    ensures |b.records| <= |Do(b, op).records|
    ensures SameSignal(b.records[i], Do(b, op).records[i]) && GoodSignal(Do(b, op).records[i])
  {
    if b.records[i] in Handed(b, op) {
      HandedIsClaimable(b, op, b.records[i]);
    }
  }

  lemma IngestKeepsSound<P>(b: Inbox<P>, p: Params<P>)
    requires Sound(b)
    ensures Sound(Ingested(b, p))
  {
  }

  /** Rewriting records in place without touching what identifies them. */
  lemma RewriteKeepsSound<P>(b: Inbox<P>, records': Records<P>)
    requires Sound(b) && |records'| == |b.records|
    requires forall i | 0 <= i < |b.records| :: SameSignal(b.records[i], records'[i]) && GoodSignal(records'[i])
    ensures Sound(b.(records := records'))
  {
  }

  lemma DoKeepsSound<P>(b: Inbox<P>, op: Op<P>)
    requires Sound(b)
    ensures Sound(Do(b, op))
  {
    if op.Ingest? {
      IngestKeepsSound(b, op.params);
    } else {
      forall i | 0 <= i < |b.records|
        ensures SameSignal(b.records[i], Do(b, op).records[i]) && GoodSignal(Do(b, op).records[i])
      {
        DoChangesEachRecord(b, op, i);
      }
      RewriteKeepsSound(b, Do(b, op).records);
    }
  }

  lemma {:induction false} RunKeepsSound<P>(b: Inbox<P>, ops: seq<Op<P>>)
    requires Sound(b)
    ensures Sound(Run(b, ops))
    decreases |ops|
  {
    if ops != [] {
      DoKeepsSound(b, ops[0]);
      RunKeepsSound(Do(b, ops[0]), ops[1..]);
    }
  }

  /**
   * From an empty inbox, whatever is called: ids increase, owner and expiry
   * stand together, a processed signal has no lease, and no two records share
   * tenant, source and a non-empty external id.
   */
  lemma ReachableIsSound<P>(ops: seq<Op<P>>)
    ensures Sound(Run(Inbox([], 0), ops))
  {
    RunKeepsSound(Inbox([], 0), ops);
  }

  /** A processed signal stays as it is for ever, and no later claim hands it out. */
  lemma {:induction false} ProcessedIsFinal<P>(b: Inbox<P>, ops: seq<Op<P>>, i: nat)
    requires Sound(b) && i < |b.records| && b.records[i].processedAt.Some?
    ensures i < |Run(b, ops).records| && Run(b, ops).records[i] == b.records[i]
    ensures forall op :: b.records[i] !in Handed(Run(b, ops), op)
    decreases |ops|
  {
    if ops != [] {
      DoKeepsSound(b, ops[0]);
      DoChangesEachRecord(b, ops[0], i);
      ProcessedIsFinal(Do(b, ops[0]), ops[1..], i);
    } else {
      forall op | b.records[i] in Handed(b, op)
        ensures false
      {
        HandedIsClaimable(b, op, b.records[i]);
      }
    }
  }

  // ── Lease exclusion ──────────────────────────────────────────────────────

  predicate HeldUntil<P>(r: Signal<P>, owner: string, expiresAt: int) {
    r.processedAt.Some? || (r.leaseOwner == Some(owner) && r.leaseExpiresAt == Some(expiresAt))
  }

  /** The operation neither comes after the expiry nor gives the signal back early. */
  predicate Within<P>(op: Op<P>, id: nat, owner: string, expiresAt: int) {
    && (op.ClaimSignals? ==> op.now < expiresAt)
    && (op.ReleaseSignals? ==> op.owner != owner || id !in op.ids)
  }

  lemma LeaseSurvives<P>(b: Inbox<P>, op: Op<P>, i: nat, owner: string, expiresAt: int)
    requires Sound(b) && i < |b.records| && HeldUntil(b.records[i], owner, expiresAt)
    requires Within(op, b.records[i].id, owner, expiresAt)
    ensures i < |Do(b, op).records| && HeldUntil(Do(b, op).records[i], owner, expiresAt)
    ensures b.records[i] !in Handed(b, op)
  {
    if b.records[i] in Handed(b, op) {
      HandedIsClaimable(b, op, b.records[i]);
    }
  }

  /**
   * A lease excludes: as long as the clock has not reached its expiry and its
   * owner has not released the signal, no operation hands the signal out
   * again, in any run.
   */
  lemma {:induction false} LeaseExcludes<P>(b: Inbox<P>, ops: seq<Op<P>>, i: nat, owner: string, expiresAt: int,
                                            op: Op<P>)
    requires Sound(b) && i < |b.records| && HeldUntil(b.records[i], owner, expiresAt)
    requires forall o | o in ops :: Within(o, b.records[i].id, owner, expiresAt)
    requires Within(op, b.records[i].id, owner, expiresAt)
    ensures i < |Run(b, ops).records| && HeldUntil(Run(b, ops).records[i], owner, expiresAt)
    ensures Run(b, ops).records[i] !in Handed(Run(b, ops), op)
    decreases |ops|
  {
    var r := b.records[i];
    if ops != [] {
      DoKeepsSound(b, ops[0]);
      DoChangesEachRecord(b, ops[0], i);
      assert Within(ops[0], r.id, owner, expiresAt);
      LeaseSurvives(b, ops[0], i, owner, expiresAt);
      LeaseExcludes(Do(b, ops[0]), ops[1..], i, owner, expiresAt, op);
    } else {
      LeaseSurvives(b, op, i, owner, expiresAt);
    }
  }

  ghost predicate Intact<P>(b: Inbox<P>, index: set<string>) {
    match b
    case Inbox(records, _) => Sound(b) && Covers(index, records)
  }

  lemma DoKeepsIntact<P>(b: Inbox<P>, index: set<string>, op: Op<P>)
    requires Intact(b, index) && !op.Ingest?
    ensures Intact(Do(b, op), index)
  {
    DoKeepsSound(b, op);
    forall i | 0 <= i < |b.records| {
      DoChangesEachRecord(b, op, i);
    }
  }

  /** A record found by the scan has its key in the set; a new record brings its key along. */
  lemma IngestKeepsIntact<P>(b: Inbox<P>, index: set<string>, p: Params<P>)
    requires Intact(b, index) && Outbox.IsUuid(p.tenantId)
    ensures Duplicate(b.records, p) < |b.records| ==>
              ExternalKey(p.tenantId, p.source, p.externalId.value) in index
    ensures var index' := if Deduplicates(p.externalId)
                          then index + {ExternalKey(p.tenantId, p.source, p.externalId.value)}
                          else index;
            Intact(Ingested(b, p), index')
  {
    DoKeepsSound(b, Ingest(p));
  }

  // ── The class ────────────────────────────────────────────────────────────

  /** What ingest tells its caller: the record with these names, and whether it was there before. */
  ghost predicate Answered<P>(before: Records<P>, after: Records<P>, p: Params<P>, r: IngestResult<P>) {
    match r
    case Invalid => after == before
    case Event(event, isDuplicate) =>
      && event in after && SameExternal(event, p.tenantId, p.source, p.externalId)
      && (isDuplicate <==> Duplicate(before, p) < |before|)
      && (isDuplicate <==> event in before)
  }

  class InMemorySignalEventsRepository<P> {
    var records: Records<P>
    var sequence: nat
    var externalIdIndex: set<string>

    ghost function Contents(): Inbox<P>
      reads this
    {
      Inbox(records, sequence)
    }

    ghost predicate Valid()
      reads this
    {
      Intact(Contents(), externalIdIndex)
    }

    constructor ()
      ensures Valid() && Contents() == Inbox([], 0)
    {
      records, sequence, externalIdIndex := [], 0, {};
    }

    /** Deduplicates exactly as a linear scan would, whatever the joined keys collide with. */
    method IngestSignal(params: Params<P>) returns (r: IngestResult<P>)
      requires Valid()
      modifies this
      ensures Valid() && Contents() == Do(old(Contents()), Ingest(params))
      ensures r == Reply(old(Contents()), params) && Answered(old(records), records, params, r)
    {
      if !Outbox.IsUuid(params.tenantId) {
        return Invalid;
      }
      IngestKeepsIntact(Contents(), externalIdIndex, params);
      if Deduplicates(params.externalId) {
        var key := ExternalKey(params.tenantId, params.source, params.externalId.value);
        var i := FindExternal(records, params.tenantId, params.source, params.externalId);
        if key in externalIdIndex && i < |records| {
          return Event(records[i], true);
        }
        externalIdIndex := externalIdIndex + {key};
      }
      r := Append(params);
    }

    /** Nothing to deduplicate against. */
    method Append(params: Params<P>) returns (r: IngestResult<P>)
      requires Outbox.IsUuid(params.tenantId) && Duplicate(records, params) == |records|
      requires forall i | 0 <= i < |records| :: records[i].id <= sequence
      requires Intact(Ingested(Contents(), params), externalIdIndex)
      modifies this`records, this`sequence
      ensures Valid() && Contents() == Ingested(old(Contents()), params)
      ensures r == Reply(old(Contents()), params) && Answered(old(records), records, params, r)
    {
      sequence := sequence + 1;
      if params.source == "" {
        return Invalid;
      }
      var record := Fresh(sequence, params);
      records := records + [record];
      return Event(record, false);
    }

    /** `findIndex` by id. */
    method FindIndex(id: nat) returns (i: nat)
      ensures i <= |records|
      ensures i < |records| ==> records[i].id == id
      ensures i == |records| ==> forall j | 0 <= j < |records| :: records[j].id != id
    {
      i := 0;
      while i < |records| && records[i].id != id
        invariant i <= |records|
        invariant forall j | 0 <= j < i :: records[j].id != id
      {
        i := i + 1;
      }
    }

    method ClaimUnprocessed(tenantId: string, t: SignalType, limit: nat, owner: string, leaseMs: int, now: int)
      returns (r: Option<Records<P>>)
      requires Valid()
      modifies this`records
      ensures Valid()
      ensures Contents() == Do(old(Contents()), ClaimSignals(tenantId, t, limit, owner, leaseMs, now))
      ensures r.None? <==> !ValidClaim(tenantId, owner, leaseMs)
      ensures r.Some? ==>
                && var list := ClaimList(old(records), tenantId, t, limit, now);
                |r.value| == |list| && forall k | 0 <= k < |list| :: r.value[k] == Leased(list[k], owner, now + leaseMs)
    {
      if !ValidClaim(tenantId, owner, leaseMs) {
        assert AfterClaim(records, [], owner, now + leaseMs) == records;
        return None;
      }
      var claimed := ClaimList(records, tenantId, t, limit, now);
      LeaseClaimable(claimed, tenantId, t, limit, owner, leaseMs, now);
      return Some(Each(claimed, (s: Signal<P>) => Leased(s, owner, now + leaseMs)));
    }

    method LeaseClaimable(claimed: Records<P>, tenantId: string, t: SignalType, limit: nat, owner: string, leaseMs: int,
                          now: int)
      requires Valid() && ValidClaim(tenantId, owner, leaseMs)
      requires claimed == ClaimList(records, tenantId, t, limit, now)
      modifies this`records
      ensures Valid()
      ensures Contents() == Do(old(Contents()), ClaimSignals(tenantId, t, limit, owner, leaseMs, now))
    {
      ghost var before := Contents();
      DoKeepsIntact(before, externalIdIndex, ClaimSignals(tenantId, t, limit, owner, leaseMs, now));
      ClaimedAreStored(before, tenantId, t, limit, now);
      LeaseEach(claimed, owner, now + leaseMs);
      assert Contents() == Do(before, ClaimSignals(tenantId, t, limit, owner, leaseMs, now));
    }

    /** The loop over the claimed records. */
    method LeaseEach(claimed: Records<P>, owner: string, expiresAt: int)
      requires Valid() && forall k | 0 <= k < |claimed| :: claimed[k] in records
      requires forall k, l | 0 <= k < l < |claimed| :: claimed[k] != claimed[l]
      modifies this`records
      ensures records == AfterClaim(old(records), claimed, owner, expiresAt)
    {
      ghost var before := records;
      var k := 0;
      while k < |claimed|
        invariant k <= |claimed| && |records| == |before|
        invariant forall i | 0 <= i < |records| ::
                    records[i] == if before[i] in claimed[..k] then Leased(before[i], owner, expiresAt) else before[i]
      {
        var record := claimed[k];
        ghost var at :| 0 <= at < |before| && before[at] == record;
        assert records[at].id == record.id;
        var index := FindIndex(record.id);
        assert before[index].id == before[at].id;
        assert claimed[..k + 1] == claimed[..k] + [record];
        records := records[index := Leased(record, owner, expiresAt)];
        k := k + 1;
      }
      assert claimed[..k] == claimed;
    }

    method MarkProcessed(tenantId: string, ids: seq<nat>, now: int)
      requires Valid()
      modifies this`records
      ensures Valid()
      ensures Contents() == Do(old(Contents()), MarkSignals(tenantId, (set id | id in ids), now))
    {
      var idSet := set id | id in ids;
      DoKeepsIntact(Contents(), externalIdIndex, MarkSignals(tenantId, idSet, now));
      ghost var before := records;
      var i := 0;
      while i < |records|
        invariant i <= |records| == |before|
        invariant forall j | 0 <= j < i :: records[j] == Processed(before[j], tenantId, idSet, now)
        invariant forall j | i <= j < |records| :: records[j] == before[j]
      {
        var r := records[i];
        if r.tenantId == tenantId && r.id in idSet && r.processedAt.None? {
          records := records[i := r.(processedAt := Some(now), leaseOwner := None, leaseExpiresAt := None)];
        }
        i := i + 1;
      }
      assert records == Do(old(Contents()), MarkSignals(tenantId, idSet, now)).records;
    }

    method ReleaseClaims(tenantId: string, ids: seq<nat>, owner: string)
      requires Valid()
      modifies this`records
      ensures Valid()
      ensures Contents() == Do(old(Contents()), ReleaseSignals(tenantId, (set id | id in ids), owner))
    {
      var idSet := set id | id in ids;
      DoKeepsIntact(Contents(), externalIdIndex, ReleaseSignals(tenantId, idSet, owner));
      ghost var before := records;
      var i := 0;
      while i < |records|
        invariant i <= |records| == |before|
        invariant forall j | 0 <= j < i :: records[j] == Released(before[j], tenantId, idSet, owner)
        invariant forall j | i <= j < |records| :: records[j] == before[j]
      {
        var r := records[i];
        if r.tenantId == tenantId && r.id in idSet && r.processedAt.None? && r.leaseOwner == Some(owner) {
          records := records[i := r.(leaseOwner := None, leaseExpiresAt := None)];
        }
        i := i + 1;
      }
      assert records == Do(old(Contents()), ReleaseSignals(tenantId, idSet, owner)).records;
    }
  }
}
