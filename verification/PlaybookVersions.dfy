/**
 * `InMemoryPlaybookVersionsRepository`
 * (packages/db/src/playbook-versions-repository.ts). Each tenant and playbook
 * type has its own version counter. The counter moves before the record is
 * validated, so a refused create uses up a number: a version is the ordinal of
 * its create among all creates of its tenant and type, refused ones included.
 */
module PlaybookVersions {
  import opened Text
  import opened KeyIndex
  import Listing
  import Outbox
  import Steps

  datatype PlaybookType = BlogDraft | ContentBrief | IntelBrief | Custom

  datatype Record = Record(
    id: nat,
    tenantId: string,
    playbookType: PlaybookType,
    version: int,
    name: string,
    createdBy: string,
    retiredAt: Option<int>)

  function Name(t: PlaybookType): string {
    match t
    case BlogDraft => "blog_draft"
    case ContentBrief => "content_brief"
    case IntelBrief => "intel_brief"
    case Custom => "custom"
  }

  lemma NameInjective(t: PlaybookType, u: PlaybookType)
    requires Name(t) == Name(u)
    ensures t == u
  {
    assert Name(t)[0] == Name(u)[0];
  }

  // ── Scans ────────────────────────────────────────────────────────────────

  predicate IsFor(r: Record, tenantId: string, t: PlaybookType) {
    r.tenantId == tenantId && r.playbookType == t
  }

  /** The records of one tenant and type, oldest first. */
  function Of(records: seq<Record>, tenantId: string, t: PlaybookType): seq<Record> {
    if records == [] then []
    else
      var n := |records| - 1;
      Of(records[..n], tenantId, t) + (if IsFor(records[n], tenantId, t) then [records[n]] else [])
  }

  lemma {:induction false} OfMembers(records: seq<Record>, tenantId: string, t: PlaybookType, r: Record)
    ensures r in Of(records, tenantId, t) <==> r in records && IsFor(r, tenantId, t)
  {
    if records != [] {
      var n := |records| - 1;
      OfMembers(records[..n], tenantId, t, r);
      assert records == records[..n] + [records[n]];
    }
  }

  /** `filter(...).sort((a, b) => b.version - a.version)` */
  function Newest(rs: seq<Record>): seq<Record> {
    Listing.SortBy(rs, (r: Record) => -r.version)
  }

  // ── The store as a value ─────────────────────────────────────────────────

  datatype Books = Books(records: seq<Record>, counters: map<string, nat>)

  function Counter(counters: map<string, nat>, tenantId: string, t: PlaybookType): nat {
    var k := Key(tenantId, Name(t)); if k in counters then counters[k] else 0
  }

  datatype Op =
    | CreateOp(tenantId: string, playbookType: PlaybookType, name: string, createdBy: string)
    | RetireOp(tenantId: string, id: nat, now: int)

  /** What the record's schema refuses; the tenant was checked before. */
  predicate IsRefused(name: string, createdBy: string) {
    name == "" || createdBy == ""
  }

  function Draw(b: Books, tenantId: string, t: PlaybookType): Books {
    b.(counters := b.counters[Key(tenantId, Name(t)) := Counter(b.counters, tenantId, t) + 1])
  }

  function NewRecord(b: Books, tenantId: string, t: PlaybookType, name: string, createdBy: string): Record {
    Record(|b.records| + 1, tenantId, t, Counter(b.counters, tenantId, t) + 1, name, createdBy, None)
  }

  predicate CanRetire(b: Books, tenantId: string, id: nat) {
    1 <= id <= |b.records| && b.records[id - 1].tenantId == tenantId && b.records[id - 1].retiredAt.None?
  }

  function Retired(records: seq<Record>, i: nat, now: int): seq<Record>
    requires i < |records|
  {
    records[i := records[i].(retiredAt := Some(now))]
  }

  function Do(b: Books, op: Op): Books {
    match op
    case CreateOp(tenantId, t, name, createdBy) =>
      if !Outbox.IsUuid(tenantId) then b
      else if IsRefused(name, createdBy) then Draw(b, tenantId, t)
      else Draw(b, tenantId, t).(records := b.records + [NewRecord(b, tenantId, t, name, createdBy)])
    case RetireOp(tenantId, id, now) =>
      if !CanRetire(b, tenantId, id) then b else b.(records := Retired(b.records, id - 1, now))
  }

  const Empty := Books([], map[])

  function Run(ops: seq<Op>): Books {
    Steps.Run(Empty, ops, Do)
  }

  // ── Numbering ────────────────────────────────────────────────────────────

  function Versions(rs: seq<Record>): (vs: seq<int>)
    ensures |vs| == |rs| && forall k | 0 <= k < |vs| :: vs[k] == rs[k].version
  {
    seq(|rs|, k requires 0 <= k < |rs| => rs[k].version)
  }

  predicate Increasing(vs: seq<int>) {
    forall i, j | 0 <= i < j < |vs| :: vs[i] < vs[j]
  }

  ghost predicate GoodRecords(records: seq<Record>) {
    forall i | 0 <= i < |records| :: records[i].id == i + 1 && Outbox.IsUuid(records[i].tenantId)
  }

  /** The versions of each tenant and type increase up to the counter. */
  ghost predicate Numbered(b: Books) {
    forall t, ty | Outbox.IsUuid(t) ::
      var vs := Versions(Of(b.records, t, ty));
      Increasing(vs) && forall k | 0 <= k < |vs| :: 1 <= vs[k] <= Counter(b.counters, t, ty)
  }

  ghost predicate Kept(b: Books) {
    match b
    case Books(records, _) => GoodRecords(records) && Numbered(b)
  }

  lemma OfAppend(records: seq<Record>, r: Record, t: string, ty: PlaybookType)
    ensures Of(records + [r], t, ty) == if IsFor(r, t, ty) then Of(records, t, ty) + [r] else Of(records, t, ty)
  {
    assert (records + [r])[..|records|] == records;
  }

  lemma DrawMovesOneCounter(b: Books, tenantId: string, ty: PlaybookType, t: string, u: PlaybookType)
    requires Outbox.IsUuid(tenantId) && Outbox.IsUuid(t)
    ensures Counter(Draw(b, tenantId, ty).counters, t, u)
         == Counter(b.counters, t, u) + (if t == tenantId && u == ty then 1 else 0)
  {
    if Key(t, Name(u)) == Key(tenantId, Name(ty)) {
      KeyInjective(t, Name(u), tenantId, Name(ty));
      NameInjective(u, ty);
    }
  }

  /** Records that agree on owner and number, one by one, show the same versions. */
  lemma {:induction false} SameNumbers(rs: seq<Record>, qs: seq<Record>, t: string, ty: PlaybookType)
    requires |rs| == |qs|
    requires forall i | 0 <= i < |rs| :: IsFor(rs[i], t, ty) == IsFor(qs[i], t, ty) && rs[i].version == qs[i].version
    ensures Versions(Of(rs, t, ty)) == Versions(Of(qs, t, ty))
    decreases |rs|
  {
    if rs != [] {
      SameNumbers(rs[..|rs| - 1], qs[..|qs| - 1], t, ty);
      LastVersion(rs, t, ty);
      LastVersion(qs, t, ty);
    }
  }

  /** Retiring a record changes neither whose it is nor its number. */
  lemma RetireKeepsVersions(records: seq<Record>, i: nat, now: int, t: string, ty: PlaybookType)
    requires i < |records|
    ensures Versions(Of(Retired(records, i, now), t, ty)) == Versions(Of(records, t, ty))
  {
    SameNumbers(Retired(records, i, now), records, t, ty);
  }

  lemma BackwardsHasAll(list: seq<Record>, rs: seq<Record>)
    requires |list| == |rs| && forall k | 0 <= k < |list| :: list[k] == rs[|list| - 1 - k]
    ensures forall r :: r in list <==> r in rs
  {
    forall r | r in rs
      ensures r in list
    {
      var k :| 0 <= k < |rs| && rs[k] == r;
      assert list[|list| - 1 - k] == r;
    }
  }

  /** Retiring marks exactly the tenant's own record of that id, if it is not retired yet, and leaves all others. */
  lemma RetireMarksOne(b: Books, tenantId: string, id: nat, now: int, i: nat)
    requires i < |b.records|
    ensures var after, r := Do(b, RetireOp(tenantId, id, now)).records, b.records[i];
            && |after| == |b.records|
            && if i + 1 == id && r.tenantId == tenantId && r.retiredAt.None?
               then after[i].retiredAt == Some(now) && after[i] == r.(retiredAt := after[i].retiredAt)
               else after[i] == r
  {
  }

  lemma LastVersion(records: seq<Record>, t: string, ty: PlaybookType)
    requires records != []
    ensures var n := |records| - 1;
            Versions(Of(records, t, ty)) == if IsFor(records[n], t, ty)
                                            then Versions(Of(records[..n], t, ty)) + [records[n].version]
                                            else Versions(Of(records[..n], t, ty))
  {
    var n := |records| - 1;
    assert records == records[..n] + [records[n]];
    OfAppend(records[..n], records[n], t, ty);
  }

  /** What one call does to the versions and the counter of one tenant and type. */
  lemma DoToOne(b: Books, op: Op, t: string, ty: PlaybookType)
    requires Outbox.IsUuid(t)
    ensures var b' := Do(b, op);
            var mine := op.CreateOp? && op.tenantId == t && op.playbookType == ty;
            var n := Counter(b.counters, t, ty);
            && Counter(b'.counters, t, ty) == n + (if mine then 1 else 0)
            && Versions(Of(b'.records, t, ty))
               == if mine && !IsRefused(op.name, op.createdBy) then Versions(Of(b.records, t, ty)) + [n + 1]
                  else Versions(Of(b.records, t, ty))
  {
    match op
    case CreateOp(tenantId, u, name, createdBy) =>
      if Outbox.IsUuid(tenantId) {
        DrawMovesOneCounter(b, tenantId, u, t, ty);
        OfAppend(b.records, NewRecord(b, tenantId, u, name, createdBy), t, ty);
      }
    case RetireOp(tenantId, id, now) =>
      if CanRetire(b, tenantId, id) {
        RetireKeepsVersions(b.records, id - 1, now, t, ty);
      }
  }

  lemma DoKeepsOne(b: Books, op: Op, t: string, ty: PlaybookType)
    requires Kept(b) && Outbox.IsUuid(t)
    ensures var vs := Versions(Of(Do(b, op).records, t, ty));
            Increasing(vs) && forall k | 0 <= k < |vs| :: 1 <= vs[k] <= Counter(Do(b, op).counters, t, ty)
  {
    DoToOne(b, op, t, ty);
  }

  lemma DoKeepsKept(b: Books, op: Op)
    requires Kept(b)
    ensures Kept(Do(b, op))
  {
    forall t, ty | Outbox.IsUuid(t)
      ensures var vs := Versions(Of(Do(b, op).records, t, ty));
              Increasing(vs) && forall k | 0 <= k < |vs| :: 1 <= vs[k] <= Counter(Do(b, op).counters, t, ty)
    {
      DoKeepsOne(b, op, t, ty);
    }
  }

  // ── What the numbers are ─────────────────────────────────────────────────

  /** The creates of one tenant and type, in order: true where the record was accepted. */
  function Draws(ops: seq<Op>, t: string, ty: PlaybookType): seq<bool> {
    if ops == [] then []
    else
      var op := ops[|ops| - 1];
      Draws(ops[..|ops| - 1], t, ty)
      + (if op.CreateOp? && op.tenantId == t && op.playbookType == ty then [!IsRefused(op.name, op.createdBy)] else [])
  }

  /** The ordinals of the accepted ones. */
  function Ordinals(draws: seq<bool>): seq<int> {
    if draws == [] then []
    else Ordinals(draws[..|draws| - 1]) + (if draws[|draws| - 1] then [|draws|] else [])
  }

  /** Over every sequence of calls a version is the ordinal of its create, refused ones included. */
  lemma {:induction false} VersionsAreOrdinals(ops: seq<Op>, t: string, ty: PlaybookType)
    requires Outbox.IsUuid(t)
    ensures Versions(Of(Run(ops).records, t, ty)) == Ordinals(Draws(ops, t, ty))
    ensures Counter(Run(ops).counters, t, ty) == |Draws(ops, t, ty)|
    decreases |ops|
  {
    if ops != [] {
      var n := |ops| - 1;
      var before, op := Draws(ops[..n], t, ty), ops[n];
      VersionsAreOrdinals(ops[..n], t, ty);
      RunOneMore(ops);
      DoToOne(Run(ops[..n]), op, t, ty);
      if op.CreateOp? && op.tenantId == t && op.playbookType == ty {
        OrdinalsAppend(before, !IsRefused(op.name, op.createdBy));
      } else {
        assert Draws(ops, t, ty) == before + [] == before;
      }
    }
  }

  lemma RunOneMore(ops: seq<Op>)
    requires ops != []
    ensures Run(ops) == Do(Run(ops[..|ops| - 1]), ops[|ops| - 1])
  {
    assert ops == ops[..|ops| - 1] + [ops[|ops| - 1]];
    Steps.Snoc(Empty, ops[..|ops| - 1], ops[|ops| - 1], Do);
  }

  lemma OrdinalsAppend(draws: seq<bool>, d: bool)
    ensures Ordinals(draws + [d]) == if d then Ordinals(draws) + [|draws| + 1] else Ordinals(draws)
  {
    assert (draws + [d])[..|draws|] == draws;
  }

  /** No refused create comes before an accepted one. */
  predicate NoneRefusedFirst(draws: seq<bool>) {
    forall i, j | 0 <= i < j < |draws| && draws[j] :: draws[i]
  }

  predicate GapFree(vs: seq<int>) {
    forall k | 0 <= k < |vs| :: vs[k] == k + 1
  }

  lemma {:induction false} OrdinalsGapFreeIff(draws: seq<bool>)
    ensures |Ordinals(draws)| <= |draws|
    ensures |Ordinals(draws)| == |draws| <==> forall i | 0 <= i < |draws| :: draws[i]
    ensures GapFree(Ordinals(draws)) <==> NoneRefusedFirst(draws)
    decreases |draws|
  {
    if draws != [] {
      var n := |draws| - 1;
      var front, vs := Ordinals(draws[..n]), Ordinals(draws);
      OrdinalsGapFreeIff(draws[..n]);
      if draws[n] {
        assert vs == front + [n + 1] && vs[|front|] == n + 1;
        assert forall k | 0 <= k < |front| :: vs[k] == front[k];
        assert NoneRefusedFirst(draws) <==> forall i | 0 <= i < n :: draws[..n][i];
      } else {
        assert vs == front;
      }
    }
  }

  /** The numbers are 1, 2, 3, ... exactly when no create was refused before an accepted one. */
  lemma GapFreeIffNoneRefused(ops: seq<Op>, t: string, ty: PlaybookType)
    requires Outbox.IsUuid(t)
    ensures GapFree(Versions(Of(Run(ops).records, t, ty))) <==> NoneRefusedFirst(Draws(ops, t, ty))
  {
    VersionsAreOrdinals(ops, t, ty);
    OrdinalsGapFreeIff(Draws(ops, t, ty));
  }

  /** A create without a name uses up the number 1. */
  lemma RefusedCreateLeavesGap(t: string, ty: PlaybookType, name: string, createdBy: string)
    requires Outbox.IsUuid(t) && !IsRefused(name, createdBy)
    ensures Versions(Of(Run([CreateOp(t, ty, "", createdBy), CreateOp(t, ty, name, createdBy)]).records, t, ty)) == [2]
  {
    var ops := [CreateOp(t, ty, "", createdBy), CreateOp(t, ty, name, createdBy)];
    VersionsAreOrdinals(ops, t, ty);
    assert Draws([], t, ty) == [];
    assert ops[..1] == [ops[0]] && ops[..1][..0] == [] && Draws(ops[..1], t, ty) == [false];
    assert Draws(ops, t, ty) == [false, true] && [false, true][..1] == [false];
    assert Ordinals([false]) == Ordinals([]) == [];
  }

  /** On increasing versions the sorted listing is the sequence backwards, whatever is left out. */
  lemma NewestReverses(rs: seq<Record>, keep: Record -> bool)
    requires Increasing(Versions(rs))
    ensures var kept := Listing.Filter(rs, keep);
            && |Newest(kept)| == |kept| && (forall k | 0 <= k < |kept| :: Newest(kept)[k] == kept[|kept| - 1 - k])
            && Increasing(Versions(kept))
  {
    var version, opposite := (r: Record) => r.version, (r: Record) => -r.version;
    assert forall i, j | 0 <= i < j < |rs| :: Versions(rs)[i] < Versions(rs)[j];
    assert Listing.Ascending(rs, version);
    Listing.FilterKeepsOrder(rs, keep, version);
    Listing.SortReverses(Listing.Filter(rs, keep), version, opposite);
  }

  lemma {:induction false} FilterAll(rs: seq<Record>)
    ensures Listing.Filter(rs, (r: Record) => true) == rs
  {
    if rs != [] {
      FilterAll(rs[1..]);
    }
  }

  class InMemoryPlaybookVersionsRepository {
    /** The Map of records in insertion order; the id of a record is its position plus one. */
    var records: seq<Record>
    var versionCounters: map<string, nat>

    ghost function Contents(): Books
      reads this
    {
      Books(records, versionCounters)
    }

    ghost predicate Valid()
      reads this
    {
      Kept(Contents())
    }

    constructor ()
      ensures Valid() && Contents() == Empty
    {
      records, versionCounters := [], map[];
    }

    /** None when validation throws: at once for a bad tenant, after the counter moved for a bad record. */
    method Create(tenantId: string, playbookType: PlaybookType, name: string, createdBy: string)
      returns (r: Option<Record>)
      requires Valid()
      modifies this
      ensures Valid() && Contents() == Do(old(Contents()), CreateOp(tenantId, playbookType, name, createdBy))
      ensures r.None? <==> !Outbox.IsUuid(tenantId) || IsRefused(name, createdBy)
      ensures r.None? ==> records == old(records)
      ensures r.Some? ==>
                && records == old(records) + [r.value] && r.value.id == |records|
                && IsFor(r.value, tenantId, playbookType)
                && r.value.createdBy == createdBy && r.value.retiredAt.None?
                && forall q | q in old(records) && IsFor(q, tenantId, playbookType) :: q.version < r.value.version
    {
      if !Outbox.IsUuid(tenantId) {
        return None;
      }
      DoKeepsKept(Contents(), CreateOp(tenantId, playbookType, name, createdBy));
      OldVersionsAreBelow(Contents(), tenantId, playbookType);
      var next := Counter(versionCounters, tenantId, playbookType) + 1;
      versionCounters := versionCounters[Key(tenantId, Name(playbookType)) := next];
      if name == "" || createdBy == "" {
        return None;
      }
      var record := Record(|records| + 1, tenantId, playbookType, next, name, createdBy, None);
      records := records + [record];
      return Some(record);
    }

    /** Newest first: the records of the tenant and type backwards, in strictly descending versions. */
    method ListAll(tenantId: string, playbookType: PlaybookType) returns (list: seq<Record>)
      requires Valid()
      ensures |list| == |Of(records, tenantId, playbookType)|
      ensures forall k | 0 <= k < |list| :: list[k] == Of(records, tenantId, playbookType)[|list| - 1 - k]
      ensures forall j, k | 0 <= j < k < |list| :: list[j].version > list[k].version
      ensures forall r :: r in list <==> r in records && r.tenantId == tenantId && r.playbookType == playbookType
    {
      var rs := Of(records, tenantId, playbookType);
      NoForeignRecords(records, tenantId, playbookType);
      NewestReverses(rs, (r: Record) => true);
      FilterAll(rs);
      list := Newest(rs);
      forall j, k | 0 <= j < k < |list|
        ensures list[j].version > list[k].version
      {
        assert Versions(rs)[|list| - 1 - k] < Versions(rs)[|list| - 1 - j];
      }
      BackwardsHasAll(list, rs);
      forall r
        ensures r in rs <==> r in records && r.tenantId == tenantId && r.playbookType == playbookType
      {
        OfMembers(records, tenantId, playbookType, r);
      }
    }

    /** The highest version that is not retired. */
    method GetActive(tenantId: string, playbookType: PlaybookType) returns (r: Option<Record>)
      requires Valid()
      ensures r.None? ==>
                forall q | q in records && q.tenantId == tenantId && q.playbookType == playbookType :: q.retiredAt.Some?
      ensures r.Some? ==>
                && r.value in records && r.value.tenantId == tenantId && r.value.playbookType == playbookType
                && r.value.retiredAt.None?
                && forall q | q in records && q.tenantId == tenantId && q.playbookType == playbookType ::
                     q.retiredAt.None? ==> q.version <= r.value.version
    {
      var rs := Of(records, tenantId, playbookType);
      NoForeignRecords(records, tenantId, playbookType);
      var keep := (r: Record) => r.retiredAt.None?;
      var candidates := Listing.Filter(rs, keep);
      forall q
        ensures q in candidates <==> q in records && IsFor(q, tenantId, playbookType) && q.retiredAt.None?
      {
        OfMembers(records, tenantId, playbookType, q);
        Listing.FilterMembers(rs, keep, q);
      }
      NewestReverses(rs, keep);
      if candidates == [] {
        return None;
      }
      HighestIsLast(candidates);
      return Some(Newest(candidates)[0]);
    }

    /** Unknown ids, other tenants' records and retired records are left alone. */
    method Retire(tenantId: string, id: nat, now: int)
      requires Valid()
      modifies this`records
      ensures Valid() && Contents() == Do(old(Contents()), RetireOp(tenantId, id, now))
    {
      DoKeepsKept(Contents(), RetireOp(tenantId, id, now));
      if !(1 <= id <= |records|) || records[id - 1].tenantId != tenantId || records[id - 1].retiredAt.Some? {
        return;
      }
      records := records[id - 1 := records[id - 1].(retiredAt := Some(now))];
    }
  }

  /** Only valid tenants have records. */
  lemma NoForeignRecords(records: seq<Record>, t: string, ty: PlaybookType)
    requires GoodRecords(records)
    ensures !Outbox.IsUuid(t) ==> Of(records, t, ty) == []
  {
    if Of(records, t, ty) != [] {
      OfMembers(records, t, ty, Of(records, t, ty)[0]);
    }
  }

  lemma OldVersionsAreBelow(b: Books, t: string, ty: PlaybookType)
    requires Kept(b) && Outbox.IsUuid(t)
    ensures forall q | q in b.records && IsFor(q, t, ty) :: q.version <= Counter(b.counters, t, ty)
  {
    var rs := Of(b.records, t, ty);
    forall q | q in b.records && IsFor(q, t, ty)
      ensures q.version <= Counter(b.counters, t, ty)
    {
      OfMembers(b.records, t, ty, q);
      var k :| 0 <= k < |rs| && rs[k] == q;
      assert Versions(rs)[k] == q.version;
    }
  }

  lemma HighestIsLast(rs: seq<Record>)
    requires rs != [] && Increasing(Versions(rs))
    ensures forall q | q in rs :: q.version <= rs[|rs| - 1].version
  {
    forall q | q in rs
      ensures q.version <= rs[|rs| - 1].version
    {
      var k :| 0 <= k < |rs| && rs[k] == q;
      assert k < |rs| - 1 ==> Versions(rs)[k] < Versions(rs)[|rs| - 1];
    }
  }
}
