/**
 * The idempotent outbox (packages/db/src/outbox-repository.ts).
 *
 * The specification is a log: rows in id order, row i carrying id i + 1. The
 * class keeps what the source keeps, a store by id and an index from a
 * colon-joined key string to an id, and is proved to behave as the log does.
 */
module Outbox {
  import opened Text
  import Listing

  /** What the outbox deduplicates by. */
  datatype Identity = Identity(tenantId: string, eventType: string, idempotencyKey: string)

  datatype Row<P> = Row(id: nat, identity: Identity, payload: P, createdAt: int, consumedAt: Option<int>)

  datatype Command<P> = Command(identity: Identity, payload: P)

  datatype Error = InvalidInput | NotFound | NotFoundForTenant

  datatype Result<+T> = Ok(value: T) | Err(error: Error)

  // ── Input schemas ────────────────────────────────────────────────────────

  predicate IsHex(c: char) {
    IsDigit(c) || 'a' <= c <= 'f' || 'A' <= c <= 'F'
  }

  /** 8-4-4-4-12 hexadecimal digits. */
  predicate IsUuid(s: string) {
    && |s| == 36
    && forall i | 0 <= i < 36 :: if i in {8, 13, 18, 23} then s[i] == '-' else IsHex(s[i])
  }

  predicate IsLower(c: char) {
    'a' <= c <= 'z'
  }

  predicate IsTypeChar(c: char) {
    IsLower(c) || IsDigit(c) || c in {'.', '_', '-'}
  }

  /** A lower-case letter, one or more type characters, `.v`, one or more digits. */
  predicate IsEventTypeSplit(s: string, dot: nat) {
    && 2 <= dot && dot + 2 < |s|
    && IsLower(s[0])
    && (forall i | 1 <= i < dot :: IsTypeChar(s[i]))
    && s[dot] == '.' && s[dot + 1] == 'v'
    && AllDigits(s[dot + 2..])
  }

  predicate IsEventType(s: string) {
    exists dot: nat | dot < |s| :: IsEventTypeSplit(s, dot)
  }

  predicate ValidIdentity(d: Identity) {
    IsUuid(d.tenantId) && IsEventType(d.eventType) && d.idempotencyKey != ""
  }

  lemma UuidHasNoColon(t: string)
    requires IsUuid(t)
    ensures ':' !in t
  {
    forall i | 0 <= i < |t|
      ensures t[i] != ':'
    {
      assert if i in {8, 13, 18, 23} then t[i] == '-' else IsHex(t[i]);
    }
  }

  lemma SchemasExcludeColon(tenantId: string, eventType: string)
    requires IsUuid(tenantId) && IsEventType(eventType)
    ensures ':' !in tenantId && ':' !in eventType
  {
    UuidHasNoColon(tenantId);
    var dot: nat :| dot < |eventType| && IsEventTypeSplit(eventType, dot);
    forall i | 0 <= i < |eventType|
      ensures eventType[i] != ':'
    {
      if i >= dot + 2 {
        assert eventType[i] == eventType[dot + 2..][i - dot - 2];
      }
    }
  }

  /** The index key of the in-memory repository. */
  function JoinedKey(d: Identity): string {
    d.tenantId + [':'] + (d.eventType + [':'] + d.idempotencyKey)
  }

  /** The joined key identifies the (tenant, type, key) triple. */
  lemma JoinedKeyInjective(d: Identity, d': Identity)
    requires ValidIdentity(d) && ValidIdentity(d')
    requires JoinedKey(d) == JoinedKey(d')
    ensures d == d'
  {
    SchemasExcludeColon(d.tenantId, d.eventType);
    SchemasExcludeColon(d'.tenantId, d'.eventType);
    JoinInjective(':', d.tenantId, d.eventType + [':'] + d.idempotencyKey,
                  d'.tenantId, d'.eventType + [':'] + d'.idempotencyKey);
    JoinInjective(':', d.eventType, d.idempotencyKey, d'.eventType, d'.idempotencyKey);
  }

  // ── The log ──────────────────────────────────────────────────────────────

  /** Ids are dense and increasing, and no two rows share an identity. */
  ghost predicate WellFormed<P>(log: seq<Row<P>>) {
    && (forall i | 0 <= i < |log| :: log[i].id == i + 1)
    && (forall i, j | 0 <= i < j < |log| :: log[i].identity != log[j].identity)
  }

  /** Position of the row with this identity, by linear scan; |log| when there is none. */
  function Find<P>(log: seq<Row<P>>, d: Identity): (i: nat)
    ensures i <= |log|
    ensures i < |log| ==> log[i].identity == d
    ensures forall j | 0 <= j < i :: log[j].identity != d
  {
    if log == [] || log[0].identity == d then 0 else Find(log[1..], d) + 1
  }

  predicate Has<P>(log: seq<Row<P>>, d: Identity) {
    Find(log, d) < |log|
  }

  /** The log after an enqueue: the first row with an identity wins for ever. */
  function Enqueued<P>(log: seq<Row<P>>, c: Command<P>, now: int): seq<Row<P>> {
    if Has(log, c.identity) then log else log + [Row(|log| + 1, c.identity, c.payload, now, None)]
  }

  function Consumed<P>(log: seq<Row<P>>, id: nat, at: int): seq<Row<P>>
    requires 1 <= id <= |log|
  {
    log[id - 1 := log[id - 1].(consumedAt := Some(at))]
  }

  /** Rows may be consumed and appended, nothing else ever changes. */
  ghost predicate Extends<P>(before: seq<Row<P>>, after: seq<Row<P>>) {
    && |before| <= |after|
    && forall i | 0 <= i < |before| ::
         && after[i].id == before[i].id && after[i].identity == before[i].identity
         && after[i].payload == before[i].payload && after[i].createdAt == before[i].createdAt
         && (before[i].consumedAt.Some? ==> after[i].consumedAt.Some?)
  }

  /** Exactly one row of the log carries this identity, and it carries this payload. */
  ghost predicate HoldsOnce<P>(log: seq<Row<P>>, d: Identity, payload: P) {
    exists i ::
      && 0 <= i < |log| && log[i].identity == d && log[i].payload == payload
      && forall j | 0 <= j < |log| && j != i :: log[j].identity != d
  }

  /** A new command becomes the single row with its identity. */
  lemma FirstEnqueueIsStored<P>(log: seq<Row<P>>, c: Command<P>, now: int)
    requires WellFormed(log) && !Has(log, c.identity)
    ensures var log' := Enqueued(log, c, now);
            && WellFormed(log') && Extends(log, log') && |log'| == |log| + 1
            && HoldsOnce(log', c.identity, c.payload)
  {
    var log' := Enqueued(log, c, now);
    assert log'[|log|].identity == c.identity && log'[|log|].payload == c.payload;
  }

  /** A row once stored stays the single row with its identity, whatever is enqueued later. */
  lemma ReplayIsAbsorbed<P>(log: seq<Row<P>>, d: Identity, first: P, replay: Command<P>, now: int)
    requires WellFormed(log) && HoldsOnce(log, d, first)
    ensures var log' := Enqueued(log, replay, now);
            && WellFormed(log') && Extends(log, log') && HoldsOnce(log', d, first)
            && (replay.identity == d ==> log' == log)
  {
    var log' := Enqueued(log, replay, now);
    var i :| && 0 <= i < |log| && log[i].identity == d && log[i].payload == first
             && forall j | 0 <= j < |log| && j != i :: log[j].identity != d;
    assert log'[i] == log[i];
    assert replay.identity == d ==> Has(log, d);
  }

  lemma ConsumeKeepsWellFormed<P>(log: seq<Row<P>>, id: nat, at: int)
    requires WellFormed(log) && 1 <= id <= |log|
    ensures WellFormed(Consumed(log, id, at)) && Extends(log, Consumed(log, id, at))
  {
    assert forall i | 0 <= i < |log| :: Consumed(log, id, at)[i].identity == log[i].identity;
  }

  /** No identity is ever lost. */
  ghost predicate KeepsIdentities<P>(log: seq<Row<P>>, log': seq<Row<P>>) {
    forall d: Identity :: Has(log, d) ==> Has(log', d)
  }

  lemma KeepsTransitive<P>(a: seq<Row<P>>, b: seq<Row<P>>, c: seq<Row<P>>)
    requires KeepsIdentities(a, b) && KeepsIdentities(b, c)
    ensures KeepsIdentities(a, c)
  {
  }

  lemma HasByPosition<P>(log: seq<Row<P>>, d: Identity, k: nat)
    requires k < |log| && log[k].identity == d
    ensures Has(log, d)
  {
  }

  lemma SameIdentitiesKeep<P>(log: seq<Row<P>>, log': seq<Row<P>>)
    requires |log| <= |log'| && forall k | 0 <= k < |log| :: log'[k].identity == log[k].identity
    ensures KeepsIdentities(log, log')
  {
    forall d: Identity | Has(log, d)
      ensures Has(log', d)
    {
      HasByPosition(log', d, Find(log, d));
    }
  }

  // ── Listing ──────────────────────────────────────────────────────────────

  predicate Increasing<P>(rows: seq<Row<P>>) {
    forall i, j | 0 <= i < j < |rows| :: rows[i].id < rows[j].id
  }

  predicate Pending<P>(r: Row<P>, tenantId: string) {
    r.identity.tenantId == tenantId && r.consumedAt.None?
  }

  /** `listUnconsumed`, as the source composes it. */
  function Unconsumed<P>(values: seq<Row<P>>, tenantId: string, limit: nat): seq<Row<P>> {
    Listing.List(values, (r: Row<P>) => Pending(r, tenantId), (r: Row<P>) => r.id, limit)
  }

  /**
   * The listing is the id-ordered prefix of the tenant's unconsumed rows: it is
   * strictly increasing, holds only such rows, is cut only by the limit, and no
   * row left out precedes a row listed.
   */
  lemma UnconsumedIsOrderedPrefix<P>(log: seq<Row<P>>, tenantId: string, limit: nat, r: Row<P>)
    requires WellFormed(log)
    ensures var list := Unconsumed(log, tenantId, limit);
            && Increasing(list) && |list| <= limit
            && (r in list ==> r in log && r.identity.tenantId == tenantId && r.consumedAt == None)
            && (r in log && r.identity.tenantId == tenantId && r.consumedAt == None && r !in list ==>
                  |list| == limit && forall k | 0 <= k < limit :: list[k].id < r.id)
  {
    Listing.ListIsOrderedPrefix(log, (r: Row<P>) => Pending(r, tenantId), (r: Row<P>) => r.id, limit, r);
  }

  // ── The in-memory repository ─────────────────────────────────────────────

  type Store<P> = map<nat, Row<P>>
  type Index = map<string, nat>

  /** Store and index are in bijection through the joined key, and the ids are 1..n. */
  ghost predicate Indexed<P>(byId: Store<P>, ids: Index, n: nat) {
    && (forall id :: id in byId <==> 1 <= id <= n)
    && (forall id {:trigger id in byId} | id in byId :: byId[id].id == id && ValidIdentity(byId[id].identity))
    && (forall id {:trigger id in byId} | id in byId ::
          JoinedKey(byId[id].identity) in ids && ids[JoinedKey(byId[id].identity)] == id)
    && (forall k {:trigger k in ids} | k in ids :: ids[k] in byId && JoinedKey(byId[ids[k]].identity) == k)
  }

  /** The values of the store. A JavaScript Map yields them in insertion order, which is id order. */
  function Rows<P>(byId: Store<P>, n: nat): (log: seq<Row<P>>)
    requires forall id | 1 <= id <= n :: id in byId
    ensures |log| == n && forall i | 0 <= i < n :: log[i] == byId[i + 1]
  {
    seq(n, i requires 0 <= i < n => byId[i + 1])
  }

  lemma IndexedRowsAreWellFormed<P>(byId: Store<P>, ids: Index, n: nat)
    requires Indexed(byId, ids, n)
    ensures WellFormed(Rows(byId, n))
  {
    var log := Rows(byId, n);
    forall i | 0 <= i < n
      ensures log[i].id == i + 1
    {
      assert i + 1 in byId;
    }
    forall i, j | 0 <= i < j < n
      ensures log[i].identity != log[j].identity
    {
      assert i + 1 in byId && j + 1 in byId;
    }
  }

  /** The index finds exactly what a scan of the log would. */
  lemma IndexAgreesWithScan<P>(byId: Store<P>, ids: Index, n: nat, d: Identity)
    requires Indexed(byId, ids, n) && ValidIdentity(d)
    ensures JoinedKey(d) in ids <==> Has(Rows(byId, n), d)
    ensures JoinedKey(d) in ids ==> byId[ids[JoinedKey(d)]].identity == d
  {
    var log := Rows(byId, n);
    if JoinedKey(d) in ids {
      var id := ids[JoinedKey(d)];
      JoinedKeyInjective(byId[id].identity, d);
      assert log[id - 1].identity == d;
    } else {
      forall i | 0 <= i < n
        ensures log[i].identity != d
      {
        assert i + 1 in byId;
      }
    }
  }

  lemma AddKeepsIndexed<P>(byId: Store<P>, ids: Index, n: nat, r: Row<P>)
    requires Indexed(byId, ids, n) && ValidIdentity(r.identity) && r.id == n + 1
    requires JoinedKey(r.identity) !in ids
    ensures Indexed(byId[r.id := r], ids[JoinedKey(r.identity) := r.id], n + 1)
    ensures Rows(byId[r.id := r], n + 1) == Rows(byId, n) + [r]
  {
  }

  lemma UpdateKeepsIndexed<P>(byId: Store<P>, ids: Index, n: nat, r: Row<P>)
    requires Indexed(byId, ids, n) && r.id in byId && r.identity == byId[r.id].identity
    ensures Indexed(byId[r.id := r], ids, n)
    ensures Rows(byId[r.id := r], n) == Rows(byId, n)[r.id - 1 := r]
  {
    var byId' := byId[r.id := r];
    assert forall id {:trigger id in byId'} :: id in byId' <==> id in byId;
    forall id | id in byId'
      ensures byId'[id].id == id && byId'[id].identity == byId[id].identity
    {
      assert id in byId;
    }
    assert forall k {:trigger k in ids} | k in ids :: byId'[ids[k]].identity == byId[ids[k]].identity;
  }

  /** The fields of the repository. */
  datatype Tables<P> = Tables(byId: Store<P>, ids: Index, sequence: nat)

  ghost predicate Sound<P>(t: Tables<P>) {
    match t
    case Tables(byId, ids, n) => Indexed(byId, ids, n)
  }

  /** The named row is consumed, or the call is refused for its reason and changes nothing. */
  predicate Marked<P(==)>(log: seq<Row<P>>, log': seq<Row<P>>, tenantId: string, id: nat, at: int, r: Result<Row<P>>) {
    match r
    case Ok(row) =>
      && 1 <= id <= |log| && log[id - 1].identity.tenantId == tenantId
      && log' == Consumed(log, id, at) && row == log'[id - 1]
    case Err(e) =>
      && log' == log
      && (if 1 <= id <= |log| then e == NotFoundForTenant && log[id - 1].identity.tenantId != tenantId
          else e == NotFound)
  }

  class InMemoryOutboxRepository<P(==)> {
    var eventsById: Store<P>
    var idsByIdempotencyKey: Index
    var sequence: nat

    ghost predicate Valid()
      reads this
    {
      Sound(Tables(eventsById, idsByIdempotencyKey, sequence))
    }

    ghost function Log(): seq<Row<P>>
      requires Valid()
      reads this
    {
      Rows(eventsById, sequence)
    }

    constructor ()
      ensures Valid() && Log() == []
    {
      eventsById, idsByIdempotencyKey, sequence := map[], map[], 0;
    }

    method Enqueue(command: Command<P>, now: int) returns (r: Result<Row<P>>)
      requires Valid()
      modifies this
      ensures Valid()
      ensures r.Err? <==> !ValidIdentity(command.identity)
      ensures r.Err? ==> unchanged(this) && r.error == InvalidInput
      ensures r.Ok? ==> Log() == Enqueued(old(Log()), command, now)
      ensures r.Ok? ==> r.value in Log() && r.value.identity == command.identity
    {
      if !ValidIdentity(command.identity) {
        return Err(InvalidInput);
      }
      var key := JoinedKey(command.identity);
      IndexAgreesWithScan(eventsById, idsByIdempotencyKey, sequence, command.identity);
      if key in idsByIdempotencyKey {
        var existing := eventsById[idsByIdempotencyKey[key]];
        assert Log()[existing.id - 1] == existing;
        return Ok(existing);
      }
      var event := Row(sequence + 1, command.identity, command.payload, now, None);
      AddKeepsIndexed(eventsById, idsByIdempotencyKey, sequence, event);
      sequence := sequence + 1;
      eventsById := eventsById[event.id := event];
      idsByIdempotencyKey := idsByIdempotencyKey[key := event.id];
      return Ok(event);
    }

    method MarkConsumed(tenantId: string, eventId: nat, consumedAt: int) returns (r: Result<Row<P>>)
      requires Valid()
      modifies this
      ensures Valid()
      ensures r.Err? ==> unchanged(this)
      ensures Marked(old(Log()), Log(), tenantId, eventId, consumedAt, r)
    {
      if eventId !in eventsById {
        return Err(NotFound);
      }
      var event := eventsById[eventId];
      if event.identity.tenantId != tenantId {
        return Err(NotFoundForTenant);
      }
      var consumed := event.(consumedAt := Some(consumedAt));
      Replace(consumed);
      return Ok(consumed);
    }

    /** Put a row in place of the one with its id. */
    method Replace(row: Row<P>)
      requires Valid() && row.id in eventsById && row.identity == eventsById[row.id].identity
      modifies this`eventsById
      ensures Valid() && Log() == old(Log())[row.id - 1 := row]
    {
      UpdateKeepsIndexed(eventsById, idsByIdempotencyKey, sequence, row);
      eventsById := eventsById[row.id := row];
    }

    method ListUnconsumed(tenantId: string, limit: nat) returns (list: seq<Row<P>>)
      requires Valid()
      ensures WellFormed(Log()) && list == Unconsumed(Log(), tenantId, limit)
    {
      IndexedRowsAreWellFormed(eventsById, idsByIdempotencyKey, sequence);
      list := Unconsumed(Rows(eventsById, sequence), tenantId, limit);
    }
  }
}
