/**
 * The learning worker as the source writes it (`processFromCritique`,
 * `processApprovedProposal`, `recordPromotionDecision`,
 * `promotePlaybookChange`, `markProposalPromoted`,
 * apps/worker-learning/src/learning-worker.ts), over the three repositories of
 * one tenant. At every await other workers and founders may act and time may
 * pass. Every execution, faults included, is proved to be a run of
 * `LearningProtocol`.
 */
module LearningWorker {
  import opened Text
  import opened LearningProposals
  import opened LearningProtocol
  import Gate = PromotionGate
  import Once = PromotionOnce
  import Playbooks = PlaybookVersions
  import Repo = LearningProposalsRepository
  import Outbox
  import Steps

  /** An update event names the playbook version; its other fields are left aside. */
  datatype Body = UpdatedBody(version: nat) | OtherBody

  type Log = seq<Outbox.Row<Body>>

  /** Where the worker awaits a call. */
  datatype Await = AtStore | AtAnnounce | AtEvidence | AtRecord | AtClaim | AtList | AtCreate | AtEmit | AtMark | AtLook

  /** Which calls throw, and what everyone else does before each of them. */
  datatype World = World(throws: Await -> bool, others: Await -> seq<Label>)

  // ── Names ────────────────────────────────────────────────────────────────

  function UpdateType(): string {
    "learning.playbook.updated.v1"
  }

  function UpdatePrefix(): string {
    "playbook-update:"
  }

  /** The update event of the critique, its id spelled as in this text. */
  function UpdateId(tenantId: string, creator: string): Outbox.Identity
    requires IsCritiqueKey(creator)
  {
    Outbox.Identity(tenantId, UpdateType(), UpdatePrefix() + creator[|CRITIQUE|..])
  }

  lemma UpdateIdInjective(t: string, k: string, l: string)
    requires IsCritiqueKey(k) && IsCritiqueKey(l) && UpdateId(t, k) == UpdateId(t, l)
    ensures k == l
  {
    PrefixIsInjective(UpdatePrefix(), k[|CRITIQUE|..], l[|CRITIQUE|..]);
    assert k == CRITIQUE + k[|CRITIQUE|..] && l == CRITIQUE + l[|CRITIQUE|..];
  }

  /** The event that announces a proposal. */
  function ProposedId(tenantId: string, creator: string): Outbox.Identity
    requires IsCritiqueKey(creator)
  {
    Outbox.Identity(tenantId, "learning.playbook.change.proposed.v1", "playbook-proposal:" + creator[|CRITIQUE|..])
  }

  lemma TypesDiffer()
    ensures forall t, k | IsCritiqueKey(k) :: ProposedId(t, k).eventType != UpdateType()
  {
    assert |"learning.playbook.change.proposed.v1"| == 36 && |UpdateType()| == 28;
  }

  /** The outbox takes both events. */
  lemma EventsAreAccepted(t: string, k: string)
    requires Outbox.IsUuid(t) && IsCritiqueKey(k)
    ensures Outbox.ValidIdentity(UpdateId(t, k)) && Outbox.ValidIdentity(ProposedId(t, k))
  {
    UpdateTypeIsValid();
    ProposedTypeIsValid();
  }

  lemma UpdateTypeIsValid()
    ensures Outbox.IsEventType(UpdateType())
  {
    assert UpdateType()[27..] == ['1'];
    assert Outbox.IsEventTypeSplit(UpdateType(), 25);
  }

  lemma ProposedTypeIsValid()
    ensures Outbox.IsEventType("learning.playbook.change.proposed.v1")
  {
    assert "learning.playbook.change.proposed.v1"[35..] == ['1'];
    assert Outbox.IsEventTypeSplit("learning.playbook.change.proposed.v1", 33);
  }

  /** Trimming a critique's key leaves one. */
  lemma {:induction false} TrimKeepsCritique(key: string)
    requires IsCritiqueKey(key)
    ensures IsCritiqueKey(TrimEnd(key))
  {
    if IsSpace(key[|key| - 1]) {
      assert |key| > |CRITIQUE| by {
        assert CRITIQUE[|CRITIQUE| - 1] == ':';
      }
      TrimKeepsCritique(key[..|key| - 1]);
    }
  }

  lemma TrimmedIsCritique(key: string)
    requires IsCritiqueKey(key)
    ensures IsCritiqueKey(Trim(key)) && Spells(key, Trim(key))
  {
    assert key[0] == CRITIQUE[0] == 'c';
    TrimKeepsCritique(key);
  }

  // ── What the repositories say in the protocol's terms ────────────────────

  ghost predicate OneTenant(ps: map<nat, Proposal>, t: string) {
    && (forall c {:trigger c in ps} | c in ps :: ps[c].tenantId == t)
    && (forall c, d {:trigger c in ps, d in ps} | c in ps && d in ps ::
          ps[c].proposalKey == ps[d].proposalKey ==> c == d)
  }

  predicate SpellsIn(creator: string, ps: map<nat, Proposal>, c: nat) {
    c in ps && Spells(creator, ps[c].proposalKey)
  }

  predicate SameVersion(v: Version, r: Playbooks.Record, i: nat, ps: map<nat, Proposal>, t: string) {
    && r.id == i + 1 && Playbooks.IsFor(r, t, v.delivery.playbookType)
    && SpellsIn(v.delivery.creator, ps, v.critique) && r.createdBy == v.delivery.creator
  }

  ghost predicate SameVersions(versions: seq<Version>, records: seq<Playbooks.Record>, ps: map<nat, Proposal>,
                               t: string) {
    |versions| == |records| && forall i | 0 <= i < |versions| :: SameVersion(versions[i], records[i], i, ps, t)
  }

  /** The protocol's note of an update is the outbox row of that update. */
  predicate SameUpdate(updated: map<UpdateKey, nat>, log: Log, k: UpdateKey, d: Outbox.Identity) {
    && (k in updated <==> Outbox.Has(log, d))
    && (k in updated ==> log[Outbox.Find(log, d)].payload == UpdatedBody(updated[k]))
  }

  ghost predicate SameUpdates(updated: map<UpdateKey, nat>, log: Log, ps: map<nat, Proposal>, t: string) {
    forall c, name {:trigger SpellsIn(name, ps, c)} | SpellsIn(name, ps, c) ::
      SameUpdate(updated, log, UpdateKey(c, name), UpdateId(t, name))
  }

  /** The row is the update of a known proposal, or of another type. */
  ghost predicate KnownRow(d: Outbox.Identity, ps: map<nat, Proposal>, t: string) {
    d.tenantId == t && d.eventType == UpdateType() ==>
      exists c, name :: SpellsIn(name, ps, c) && d == UpdateId(t, name)
  }

  ghost predicate KnownRows(updated: map<UpdateKey, nat>, log: Log, ps: map<nat, Proposal>, t: string) {
    && (forall k {:trigger k in updated} | k in updated :: k.critique in ps)
    && (forall i | 0 <= i < |log| :: KnownRow(log[i].identity, ps, t))
  }

  datatype Concrete = Concrete(
    proposals: map<nat, Proposal>, nextToken: nat, records: seq<Playbooks.Record>, log: Log, tenantId: string)

  ghost predicate Matches(s: Sys, k: Concrete) {
    match k
    case Concrete(ps, nextToken, records, log, t) =>
      && s.proposals == ps && s.nextToken == nextToken && OneTenant(ps, t)
      && SameVersions(s.versions, records, ps, t) && SameUpdates(s.updated, log, ps, t)
      && KnownRows(s.updated, log, ps, t)
  }

  lemma MovingKeepsMatch(s: Sys, k: Concrete, w: nat, pc: Pc)
    requires Matches(s, k)
    ensures Matches(Goto(s, w, pc), k)
  {
  }

  /** Rewriting a proposal without touching what names it. */
  lemma SavingKeepsMatch(s: Sys, k: Concrete, c: nat, p: Proposal, nextToken: nat)
    requires Matches(s, k) && c in s.proposals
    requires p.tenantId == s.proposals[c].tenantId && p.proposalKey == s.proposals[c].proposalKey
    ensures Matches(Save(s, c, p).(nextToken := nextToken),
                    k.(proposals := k.proposals[c := p], nextToken := nextToken))
  {
    SameNamesKeepMatch(s, k, s.proposals[c := p], nextToken);
  }

  /** Proposals with the same names, and perhaps more of them. */
  ghost predicate Renews(ps: map<nat, Proposal>, ps': map<nat, Proposal>) {
    forall c {:trigger c in ps} | c in ps ::
      c in ps' && ps'[c].proposalKey == ps[c].proposalKey && ps'[c].tenantId == ps[c].tenantId
  }

  lemma VersionsRenew(versions: seq<Version>, records: seq<Playbooks.Record>,
                      ps: map<nat, Proposal>, ps': map<nat, Proposal>, t: string)
    requires SameVersions(versions, records, ps, t) && Renews(ps, ps')
    ensures SameVersions(versions, records, ps', t)
  {
    forall i | 0 <= i < |versions|
      ensures SameVersion(versions[i], records[i], i, ps', t)
    {
      assert SameVersion(versions[i], records[i], i, ps, t);
    }
  }

  lemma RowsRenew(updated: map<UpdateKey, nat>, log: Log, ps: map<nat, Proposal>, ps': map<nat, Proposal>, t: string)
    requires KnownRows(updated, log, ps, t) && Renews(ps, ps')
    ensures KnownRows(updated, log, ps', t)
  {
    forall i | 0 <= i < |log|
      ensures KnownRow(log[i].identity, ps', t)
    {
      RowRenews(log[i].identity, ps, ps', t);
    }
  }

  lemma RowRenews(d: Outbox.Identity, ps: map<nat, Proposal>, ps': map<nat, Proposal>, t: string)
    requires KnownRow(d, ps, t) && Renews(ps, ps')
    ensures KnownRow(d, ps', t)
  {
    if d.tenantId == t && d.eventType == UpdateType() {
      var c, name :| SpellsIn(name, ps, c) && d == UpdateId(t, name);
      assert SpellsIn(name, ps', c);
    }
  }

  lemma SameNamesKeepMatch(s: Sys, k: Concrete, ps': map<nat, Proposal>, nextToken: nat)
    requires Matches(s, k) && Renews(s.proposals, ps') && forall c :: c in ps' <==> c in s.proposals
    ensures Matches(s.(proposals := ps', nextToken := nextToken), k.(proposals := ps', nextToken := nextToken))
  {
    VersionsRenew(s.versions, k.records, s.proposals, ps', k.tenantId);
    RowsRenew(s.updated, k.log, s.proposals, ps', k.tenantId);
    forall c, name | SpellsIn(name, ps', c)
      ensures SameUpdate(s.updated, k.log, UpdateKey(c, name), UpdateId(k.tenantId, name))
    {
      assert SpellsIn(name, s.proposals, c);
    }
    assert forall c {:trigger c in ps'} | c in ps' :: c in s.proposals;
  }

  /** A new proposal has no update event yet: every update row belongs to a known one. */
  lemma ProposingKeepsMatch(s: Sys, k: Concrete, c: nat, p: Proposal)
    requires Matches(s, k) && c !in s.proposals && p.tenantId == k.tenantId
    requires forall d {:trigger d in s.proposals} | d in s.proposals :: s.proposals[d].proposalKey != p.proposalKey
    ensures Matches(Save(s, c, p), k.(proposals := k.proposals[c := p]))
  {
    var ps, ps' := s.proposals, s.proposals[c := p];
    VersionsRenew(s.versions, k.records, ps, ps', k.tenantId);
    RowsRenew(s.updated, k.log, ps, ps', k.tenantId);
    forall e, name | SpellsIn(name, ps', e)
      ensures SameUpdate(s.updated, k.log, UpdateKey(e, name), UpdateId(k.tenantId, name))
    {
      if e == c {
        NotYetUpdated(s, k, p.proposalKey, name);
        assert UpdateKey(c, name) !in s.updated;
      } else {
        assert SpellsIn(name, ps, e);
      }
    }
  }

  lemma NotYetUpdated(s: Sys, k: Concrete, key: string, name: string)
    requires Matches(s, k) && Spells(name, key)
    requires forall d {:trigger d in s.proposals} | d in s.proposals :: s.proposals[d].proposalKey != key
    ensures !Outbox.Has(k.log, UpdateId(k.tenantId, name))
  {
    var d := UpdateId(k.tenantId, name);
    if Outbox.Has(k.log, d) {
      assert KnownRow(k.log[Outbox.Find(k.log, d)].identity, s.proposals, k.tenantId);
      var e, other :| SpellsIn(other, s.proposals, e) && d == UpdateId(k.tenantId, other);
      UpdateIdInjective(k.tenantId, name, other);
    }
  }

  lemma CreatingKeepsMatch(s: Sys, k: Concrete, v: Version, r: Playbooks.Record)
    requires Matches(s, k) && SameVersion(v, r, |k.records|, s.proposals, k.tenantId)
    ensures Matches(s.(versions := s.versions + [v]), k.(records := k.records + [r]))
  {
    var versions, records := s.versions + [v], k.records + [r];
    forall i | 0 <= i < |versions|
      ensures SameVersion(versions[i], records[i], i, s.proposals, k.tenantId)
    {
      assert i < |s.versions| ==> SameVersion(s.versions[i], k.records[i], i, s.proposals, k.tenantId);
    }
  }

  lemma FindAppend(log: Log, d: Outbox.Identity, row: Outbox.Row<Body>)
    ensures Outbox.Has(log, d) ==> Outbox.Find(log + [row], d) == Outbox.Find(log, d)
    ensures !Outbox.Has(log, d) ==> (Outbox.Has(log + [row], d) <==> row.identity == d)
    ensures !Outbox.Has(log, d) && row.identity == d ==> Outbox.Find(log + [row], d) == |log|
  {
    var longer := log + [row];
    var i := Outbox.Find(longer, d);
    assert forall j | 0 <= j < |log| :: longer[j] == log[j];
    assert longer[|log|] == row;
    if Outbox.Has(log, d) {
      assert longer[Outbox.Find(log, d)].identity == d;
    }
  }

  lemma NewRowIsKnown(updated: map<UpdateKey, nat>, log: Log, row: Outbox.Row<Body>, ps: map<nat, Proposal>, t: string)
    requires KnownRows(updated, log, ps, t) && KnownRow(row.identity, ps, t)
    ensures KnownRows(updated, log + [row], ps, t)
  {
    forall i | 0 <= i < |log + [row]|
      ensures KnownRow((log + [row])[i].identity, ps, t)
    {
      assert i < |log| ==> KnownRow(log[i].identity, ps, t);
    }
  }

  lemma EmittingKeepsMatch(s: Sys, k: Concrete, c: nat, name: string, v: nat, now: int)
    requires Matches(s, k) && SpellsIn(name, s.proposals, c)
    ensures var command := Outbox.Command(UpdateId(k.tenantId, name), UpdatedBody(v));
            Matches(s.(updated := WithUpdate(s.updated, UpdateKey(c, name), v)),
                    k.(log := Outbox.Enqueued(k.log, command, now)))
  {
    var ps, key := s.proposals, UpdateKey(c, name);
    if key !in s.updated {
      var row := Outbox.Row(|k.log| + 1, UpdateId(k.tenantId, name), UpdatedBody(v), now, None);
      assert KnownRow(row.identity, ps, k.tenantId);
      NewRowIsKnown(s.updated, k.log, row, ps, k.tenantId);
      forall e, other | SpellsIn(other, ps, e)
        ensures SameUpdate(s.updated[key := v], k.log + [row], UpdateKey(e, other), UpdateId(k.tenantId, other))
      {
        UpdateOne(s, k, key, v, UpdateKey(e, other), row);
      }
    }
  }

  lemma UpdateAppend(updated: map<UpdateKey, nat>, log: Log, row: Outbox.Row<Body>, k: UpdateKey, v: nat, l: UpdateKey,
                     id: Outbox.Identity)
    requires SameUpdate(updated, log, l, id) && k !in updated && row.payload == UpdatedBody(v)
    requires row.identity == id <==> k == l
    ensures SameUpdate(updated[k := v], log + [row], l, id)
  {
    FindAppend(log, id, row);
  }

  lemma UpdateOne(s: Sys, k: Concrete, key: UpdateKey, v: nat, other: UpdateKey, row: Outbox.Row<Body>)
    requires Matches(s, k) && key !in s.updated
    requires SpellsIn(key.creator, s.proposals, key.critique) && SpellsIn(other.creator, s.proposals, other.critique)
    requires row.identity == UpdateId(k.tenantId, key.creator) && row.payload == UpdatedBody(v)
    ensures SameUpdate(s.updated[key := v], k.log + [row], other, UpdateId(k.tenantId, other.creator))
  {
    if UpdateId(k.tenantId, other.creator) == row.identity {
      UpdateIdInjective(k.tenantId, other.creator, key.creator);
      assert s.proposals[key.critique].proposalKey == s.proposals[other.critique].proposalKey;
    }
    UpdateAppend(s.updated, k.log, row, key, v, other, UpdateId(k.tenantId, other.creator));
  }

  /** Events of other types are nothing to the protocol. */
  lemma OtherEventKeepsMatch(s: Sys, k: Concrete, d: Outbox.Identity, now: int)
    requires Matches(s, k) && d.eventType != UpdateType()
    ensures Matches(s, k.(log := Outbox.Enqueued(k.log, Outbox.Command(d, OtherBody), now)))
  {
    var row := Outbox.Row(|k.log| + 1, d, OtherBody, now, None);
    NewRowIsKnown(s.updated, k.log, row, s.proposals, k.tenantId);
    forall c, name | SpellsIn(name, s.proposals, c)
      ensures SameUpdate(s.updated, k.log + [row], UpdateKey(c, name), UpdateId(k.tenantId, name))
    {
      FindAppend(k.log, UpdateId(k.tenantId, name), row);
    }
  }

  // ── The search for an earlier version ────────────────────────────────────

  /** The newest record by this creator, its position in the list of all records. */
  function NewestBy(rs: seq<Playbooks.Record>, author: string): Option<nat> {
    if rs == [] then None
    else
      var n := |rs| - 1;
      if rs[n].createdBy == author && rs[n].id > 0 then Some(rs[n].id - 1) else NewestBy(rs[..n], author)
  }

  /** What the listing of one type shows is what the protocol finds among all versions. */
  lemma {:induction false} NewestIsFound(versions: seq<Version>, records: seq<Playbooks.Record>, ps: map<nat, Proposal>,
                                         t: string, c: nat, d: Delivery)
    requires SameVersions(versions, records, ps, t) && OneTenant(ps, t) && SpellsIn(d.creator, ps, c)
    ensures var i := FindVersion(versions, c, d);
            NewestBy(Playbooks.Of(records, t, d.playbookType), d.creator) == if i < |versions| then Some(i) else None
    decreases |versions|
  {
    if versions != [] {
      var n := |versions| - 1;
      assert SameVersion(versions[n], records[n], n, ps, t);
      assert SameVersions(versions[..n], records[..n], ps, t);
      NewestIsFound(versions[..n], records[..n], ps, t, c, d);
      assert records[n].createdBy == d.creator ==> versions[n].critique == c;
      NewestAppend(Playbooks.Of(records[..n], t, d.playbookType), records[n], d.creator);
      OfLast(records, t, d.playbookType);
    }
  }

  lemma NewestAppend(front: seq<Playbooks.Record>, r: Playbooks.Record, author: string)
    ensures NewestBy(front + [r], author) == if r.createdBy == author && r.id > 0 then Some(r.id - 1)
                                             else NewestBy(front, author)
  {
    assert (front + [r])[..|front|] == front;
  }

  lemma OfLast(records: seq<Playbooks.Record>, t: string, ty: PlaybookType)
    requires records != []
    ensures var n := |records| - 1;
            Playbooks.Of(records, t, ty) == if Playbooks.IsFor(records[n], t, ty)
                                            then Playbooks.Of(records[..n], t, ty) + [records[n]]
                                            else Playbooks.Of(records[..n], t, ty)
  {
  }

  /** `priorVersions.find(...)` over the newest-first listing. */
  method FindPrior(list: seq<Playbooks.Record>, author: string, ghost rs: seq<Playbooks.Record>)
    returns (found: Option<nat>)
    requires |list| == |rs| && forall k | 0 <= k < |list| :: list[k] == rs[|rs| - 1 - k]
    requires forall k | 0 <= k < |rs| :: rs[k].id > 0
    ensures found == NewestBy(rs, author)
  {
    var k := 0;
    assert rs[..|rs|] == rs;
    while k < |list|
      invariant k <= |list| && NewestBy(rs, author) == NewestBy(rs[..|rs| - k], author)
    {
      ghost var rest := rs[..|rs| - k];
      assert rest[|rest| - 1] == list[k] && rest[..|rest| - 1] == rs[..|rs| - (k + 1)];
      if list[k].createdBy == author {
        return Some(list[k].id - 1);
      }
      k := k + 1;
    }
    return None;
  }

  // ── When nothing throws and nobody else acts ─────────────────────────────

  ghost predicate IsSmooth(world: World) {
    forall a: Await :: !world.throws(a) && world.others(a) == []
  }

  /** The evidence, on a proposal nothing has closed and no lease holds, is enough for a promotion. */
  predicate Convinces(metrics: Gate.Evaluation, p: Proposal, policy: Gate.Policy, now: int) {
    match p
    case Proposal(_, _, _, risk, _, _, _, _, _, _, approvedAt, _, _) =>
      && OpenAt(p, now)
      && Gate.Evaluate(metrics.(risk := risk, humanApproved := approvedAt.Some?), policy) == Some(Gate.Promote)
  }

  predicate SameProposals(s: Sys, s': Sys) {
    match s
    case Sys(proposals, _, _, now, _, _) => s'.proposals == proposals && s'.now == now
  }

  /** The proposal is approved, and no lease stands. */
  predicate IsFree(s: Sys, c: nat) {
    match s
    case Sys(ps, _, _, now, _, _) => c in ps && ps[c].status.Approved? && OpenAt(ps[c], now)
  }

  /** The proposal is approved, and this lease stands. */
  predicate IsHeld(s: Sys, c: nat, claim: Claim) {
    match s
    case Sys(ps, _, _, now, _, _) =>
      c in ps && ps[c].status.Approved? && ps[c].promotionClaim == Some(claim) && now < claim.expiresAt
  }

  lemma RecordDecides(s: Sys, w: nat, policy: Gate.Policy)
    requires PcOf(s, w).EvidenceRead? && PcOf(s, w).critique in s.proposals
    ensures var EvidenceRead(c, d, e) := PcOf(s, w);
            var s' := Do(s, RecordDecision(w), policy);
            && (PcOf(s', w).Eligible? <==>
                  OpenAt(s.proposals[c], s.now) && Gate.Evaluate(e, policy) == Some(Gate.Promote))
            && (PcOf(s', w).Eligible? ==> IsFree(s', c))
  {
    var EvidenceRead(c, d, e) := PcOf(s, w);
    if Gate.Evaluate(e, policy).Some? {
      DecisionLeads(s.proposals[c], e, Gate.Evaluate(e, policy).value, s.now);
    }
  }

  lemma FreeIsClaimed(s: Sys, w: nat, policy: Gate.Policy)
    requires PcOf(s, w).Eligible? && IsFree(s, PcOf(s, w).critique)
    ensures var s' := Do(s, TakeClaim(w, LEASE_MS), policy);
            PcOf(s', w).Claimed? && IsHeld(s', PcOf(s, w).critique, PcOf(s', w).claim)
  {
  }

  lemma HeldStays(s: Sys, l: Label, policy: Gate.Policy, c: nat, claim: Claim)
    requires IsHeld(s, c, claim) && (l.ListVersions? || l.CreateVersion? || l.EmitUpdate?)
    ensures IsHeld(Do(s, l, policy), c, claim)
  {
  }

  lemma HeldIsMarked(s: Sys, c: nat, claim: Claim, v: nat)
    requires IsHeld(s, c, claim)
    ensures Attempt(s.proposals[c], PromoteOp(v, claim.token, s.now)).Some?
  {
  }

  // ── Whose step it is ─────────────────────────────────────────────────────

  predicate ByWorker(l: Label, w: nat) {
    match l
    case ReadEvidence(v, _, _, _) => v == w
    case RecordDecision(v) => v == w
    case TakeClaim(v, _) => v == w
    case ListVersions(v) => v == w
    case CreateVersion(v) => v == w
    case EmitUpdate(v) => v == w
    case Mark(v) => v == w
    case Crash(v) => v == w
    case _ => false
  }

  /** Steps in this worker's name concern its one proposal and take the default lease. */
  predicate InExecution(l: Label, w: nat, c: nat, d: Delivery) {
    ByWorker(l, w) ==>
      && (l.ReadEvidence? ==> l.critique == c && l.delivery == d)
      && (l.TakeClaim? ==> l.leaseMs == LEASE_MS)
  }

  function Execution(w: nat, c: nat, d: Delivery): Label -> bool {
    (l: Label) => InExecution(l, w, c, d)
  }

  /** A worker working on one delivery about one proposal. */
  datatype Job = Job(w: nat, critique: nat, delivery: Delivery, policy: Gate.Policy)

  /** The job's proposal is stored, under the id its message spells. */
  predicate IsKnown(job: Job, s: Sys) {
    SpellsIn(job.delivery.creator, s.proposals, job.critique)
  }

  function EventFor(job: Job): UpdateKey {
    UpdateKey(job.critique, job.delivery.creator)
  }

  /** The worker has a version for its job under this claim. */
  predicate HasVersionFor(pc: Pc, job: Job, claim: Claim) {
    pc.HasVersion? && pc.critique == job.critique && pc.delivery == job.delivery && pc.claim == claim
  }

  /** A worker past the lease knows its proposal. */
  predicate KnowsIt(s: Sys, w: nat) {
    !PcOf(s, w).Idle? && SpellsIn(PcOf(s, w).delivery.creator, s.proposals, PcOf(s, w).critique)
  }

  function NotMine(w: nat): Label -> bool {
    (l: Label) => !ByWorker(l, w)
  }

  ghost predicate Reached(start: Sys, labels: seq<Label>, s: Sys, job: Job) {
    Steps.Reached(start, labels, s, Under(job.policy), Execution(job.w, job.critique, job.delivery))
  }

  predicate IsStep(l: Label, job: Job) {
    InExecution(l, job.w, job.critique, job.delivery)
  }

  lemma Extend(start: Sys, labels: seq<Label>, s: Sys, l: Label, job: Job)
    requires Reached(start, labels, s, job) && IsStep(l, job)
    ensures Reached(start, labels + [l], Do(s, l, job.policy), job)
  {
    Steps.Extend(start, labels, s, l, Under(job.policy), Execution(job.w, job.critique, job.delivery));
  }

  lemma Join(s0: Sys, first: seq<Label>, s1: Sys, second: seq<Label>, s2: Sys, job: Job)
    requires Reached(s0, first, s1, job) && Reached(s1, second, s2, job)
    ensures Reached(s0, first + second, s2, job)
  {
    Steps.Join(s0, first, s1, second, s2, Under(job.policy), Execution(job.w, job.critique, job.delivery));
  }

  ghost predicate OthersOnly(world: World, w: nat) {
    forall a: Await, l | l in world.others(a) :: !ByWorker(l, w)
  }

  /** Proposals keep their names, and an update event once there stays. */
  ghost predicate Later(s: Sys, s': Sys) {
    Renews(s.proposals, s'.proposals) && forall k {:trigger k in s.updated} | k in s.updated :: k in s'.updated
  }

  lemma LaterComposes(s: Sys, s': Sys, s'': Sys)
    requires Later(s, s') && Later(s', s'')
    ensures Later(s, s'')
  {
  }

  lemma OthersLeaveMe(s: Sys, l: Label, w: nat, policy: Gate.Policy)
    requires !ByWorker(l, w)
    ensures PcOf(Do(s, l, policy), w) == PcOf(s, w)
  {
  }

  lemma DoIsLater(s: Sys, l: Label, policy: Gate.Policy)
    ensures Later(s, Do(s, l, policy))
  {
  }

  // ── Each repository call is the protocol's step ──────────────────────────

  /** What the repository was asked to record, if anything was. */
  ghost predicate Recorded(k: Concrete, after: map<nat, Proposal>, reply: Repo.Reply, c: nat, e: Gate.Evaluation,
                           policy: Gate.Policy, now: int)
  {
    match Gate.Evaluate(e, policy)
    case None => reply == Repo.Refused && after == k.proposals
    case Some(d) => Repo.Applied(k.proposals, after, reply, k.tenantId, c, EvaluationOp(e, d, now))
  }

  lemma RecordIs(s: Sys, k: Concrete, w: nat, policy: Gate.Policy, reply: Repo.Reply, after: map<nat, Proposal>)
    requires Matches(s, k) && Outbox.IsUuid(k.tenantId) && PcOf(s, w).EvidenceRead?
    requires PcOf(s, w).critique in s.proposals
    requires var EvidenceRead(c, d, e) := PcOf(s, w); Recorded(k, after, reply, c, e, policy, s.now)
    ensures var s' := Do(s, RecordDecision(w), policy);
            var EvidenceRead(c, d, e) := PcOf(s, w);
            var eligible := reply.Done? && reply.proposal.status.Approved?;
            && Matches(s', k.(proposals := after)) && PcOf(s', w) == (if eligible then Eligible(c, d) else Idle)
            && (eligible ==> c in s'.proposals && s'.proposals[c].status.Approved?)
  {
    var EvidenceRead(c, d, e) := PcOf(s, w);
    var p := Decided(s.proposals[c], e, policy, s.now);
    if p.Some? {
      SavingKeepsMatch(s, k, c, p.value, s.nextToken);
      assert Save(s, c, p.value).(nextToken := s.nextToken) == Save(s, c, p.value);
      MovingKeepsMatch(Save(s, c, p.value), k.(proposals := after), w,
                       if p.value.status.Approved? then Eligible(c, d) else Idle);
    } else {
      MovingKeepsMatch(s, k, w, Idle);
    }
  }

  ghost predicate LeaseApplied(k: Concrete, k': Concrete, reply: Repo.Reply, c: nat, leaseMs: int, now: int) {
    match k
    case Concrete(before, nextToken, records, log, t) =>
      && k' == Concrete(k'.proposals, nextToken + (if reply.Done? then 1 else 0), records, log, t)
      && Repo.Applied(before, k'.proposals, reply, t, c, ClaimOp(nextToken, leaseMs, now))
  }

  lemma LeaseIs(s: Sys, k: Concrete, w: nat, leaseMs: int, policy: Gate.Policy, reply: Repo.Reply, k': Concrete)
    requires Matches(s, k) && Outbox.IsUuid(k.tenantId) && PcOf(s, w).Eligible? && PcOf(s, w).critique in s.proposals
    requires LeaseApplied(k, k', reply, PcOf(s, w).critique, leaseMs, s.now)
    ensures var s' := Do(s, TakeClaim(w, leaseMs), policy);
            var Eligible(c, d) := PcOf(s, w);
            && Matches(s', k')
            && PcOf(s', w) == if reply.Done? then Claimed(c, d, Claim(s.nextToken, s.now + leaseMs)) else Idle
  {
    var Eligible(c, d) := PcOf(s, w);
    var p := ClaimPromotion(s.proposals[c], s.nextToken, leaseMs, s.now);
    if p.Some? {
      SavingKeepsMatch(s, k, c, p.value, s.nextToken + 1);
      var s1 := Save(s, c, p.value).(nextToken := s.nextToken + 1);
      var pc := Claimed(c, d, Claim(s.nextToken, s.now + leaseMs));
      MovingKeepsMatch(s1, k', w, pc);
      assert ClaimStep(s, w, leaseMs) == Goto(s1, w, pc);
    } else {
      MovingKeepsMatch(s, k, w, Idle);
    }
  }

  lemma IdsArePositive(records: seq<Playbooks.Record>, t: string, ty: PlaybookType)
    requires Playbooks.GoodRecords(records)
    ensures forall j | 0 <= j < |Playbooks.Of(records, t, ty)| :: Playbooks.Of(records, t, ty)[j].id > 0
  {
    forall j | 0 <= j < |Playbooks.Of(records, t, ty)| {
      Playbooks.OfMembers(records, t, ty, Playbooks.Of(records, t, ty)[j]);
    }
  }

  lemma ListIs(s: Sys, k: Concrete, w: nat, policy: Gate.Policy, prior: Option<nat>)
    requires Matches(s, k) && PcOf(s, w).Claimed? && KnowsIt(s, w)
    requires var Claimed(c, d, claim) := PcOf(s, w);
             prior == NewestBy(Playbooks.Of(k.records, k.tenantId, d.playbookType), d.creator)
    ensures var s' := Do(s, ListVersions(w), policy);
            var Claimed(c, d, claim) := PcOf(s, w);
            && Matches(s', k)
            && PcOf(s', w) == if prior.Some? then HasVersion(c, d, claim, prior.value) else NoneFound(c, d, claim)
  {
    var Claimed(c, d, claim) := PcOf(s, w);
    NewestIsFound(s.versions, k.records, s.proposals, k.tenantId, c, d);
    MovingKeepsMatch(s, k, w, if prior.Some? then HasVersion(c, d, claim, prior.value) else NoneFound(c, d, claim));
  }

  lemma CreateIs(s: Sys, k: Concrete, w: nat, policy: Gate.Policy, r: Playbooks.Record)
    requires Matches(s, k) && PcOf(s, w).NoneFound? && KnowsIt(s, w)
    requires var NoneFound(c, d, claim) := PcOf(s, w);
             r.id == |k.records| + 1 && Playbooks.IsFor(r, k.tenantId, d.playbookType) && r.createdBy == d.creator
    ensures var s' := Do(s, CreateVersion(w), policy);
            var NoneFound(c, d, claim) := PcOf(s, w);
            Matches(s', k.(records := k.records + [r])) && PcOf(s', w) == HasVersion(c, d, claim, r.id - 1)
  {
    var NoneFound(c, d, claim) := PcOf(s, w);
    CreatingKeepsMatch(s, k, Version(c, d), r);
    MovingKeepsMatch(s.(versions := s.versions + [Version(c, d)]), k.(records := k.records + [r]), w,
                     HasVersion(c, d, claim, r.id - 1));
  }

  lemma EmitIs(s: Sys, k: Concrete, w: nat, policy: Gate.Policy)
    requires Matches(s, k) && PcOf(s, w).HasVersion? && KnowsIt(s, w)
    ensures var s' := Do(s, EmitUpdate(w), policy);
            var HasVersion(c, d, claim, v) := PcOf(s, w);
            var command := Outbox.Command(UpdateId(k.tenantId, d.creator), UpdatedBody(v));
            && Matches(s', k.(log := Outbox.Enqueued(k.log, command, s.now)))
            && PcOf(s', w) == Emitted(c, d, claim, v) && UpdateKey(c, d.creator) in s'.updated
  {
    var HasVersion(c, d, claim, v) := PcOf(s, w);
    EmittingKeepsMatch(s, k, c, d.creator, v, s.now);
    var command := Outbox.Command(UpdateId(k.tenantId, d.creator), UpdatedBody(v));
    MovingKeepsMatch(s.(updated := WithUpdate(s.updated, UpdateKey(c, d.creator), v)),
                     k.(log := Outbox.Enqueued(k.log, command, s.now)), w, Emitted(c, d, claim, v));
  }

  predicate PromotedTo(s: Sys, c: nat, v: nat) {
    c in s.proposals && s.proposals[c].status.Promoted? && s.proposals[c].promotedVersionRef == Some(v)
  }

  /** The mark changes the one proposal, if it is accepted at all. */
  lemma MarkStepIs(s: Sys, w: nat, policy: Gate.Policy)
    requires PcOf(s, w).Emitted? && PcOf(s, w).critique in s.proposals
    ensures var Emitted(c, d, claim, v) := PcOf(s, w);
            var p := MarkPromoted(s.proposals[c], v, claim.token, s.now);
            Do(s, Mark(w), policy) == Goto(if p.Some? then Save(s, c, p.value) else s, w, Idle)
  {
  }

  lemma MarkIs(s: Sys, k: Concrete, w: nat, policy: Gate.Policy, reply: Repo.Reply, after: map<nat, Proposal>)
    requires Matches(s, k) && Outbox.IsUuid(k.tenantId) && PcOf(s, w).Emitted? && PcOf(s, w).critique in s.proposals
    requires var Emitted(c, d, claim, v) := PcOf(s, w);
             Repo.Applied(k.proposals, after, reply, k.tenantId, c, PromoteOp(v, claim.token, s.now))
    ensures var s' := Do(s, Mark(w), policy);
            && Matches(s', k.(proposals := after)) && PcOf(s', w).Idle?
            && (reply.Done? ==> PromotedTo(s', PcOf(s, w).critique, PcOf(s, w).version))
  {
    var Emitted(c, d, claim, v) := PcOf(s, w);
    MarkStepIs(s, w, policy);
    FounderIs(s, k, c, PromoteOp(v, claim.token, s.now), reply, after);
    MovingKeepsMatch(Founded(s, c, PromoteOp(v, claim.token, s.now)), k.(proposals := after), w, Idle);
  }

  function Founded(s: Sys, c: nat, op: Op): Sys
    requires c in s.proposals
  {
    if Attempt(s.proposals[c], op).Some? then Save(s, c, Attempt(s.proposals[c], op).value) else s
  }

  lemma FoundedIs(s: Sys, c: nat, approver: string, v: nat, policy: Gate.Policy)
    requires c in s.proposals
    ensures Do(s, HumanApproves(c, approver), policy) == Founded(s, c, ApproveOp(approver, s.now))
    ensures Do(s, RollBack(c, v), policy) == Founded(s, c, RollBackOp(v, s.now))
  {
  }

  /** A call that changes one proposal and nothing else. */
  lemma FounderIs(s: Sys, k: Concrete, c: nat, op: Op, reply: Repo.Reply, after: map<nat, Proposal>)
    requires Matches(s, k) && Outbox.IsUuid(k.tenantId) && c in s.proposals
    requires Repo.Applied(k.proposals, after, reply, k.tenantId, c, op)
    ensures Matches(Founded(s, c, op), k.(proposals := after))
  {
    var p := Attempt(s.proposals[c], op);
    if p.Some? {
      SavingKeepsMatch(s, k, c, p.value, s.nextToken);
      assert Save(s, c, p.value).(nextToken := s.nextToken) == Save(s, c, p.value);
    }
  }

  // ── The worker ───────────────────────────────────────────────────────────

  class LearningWorker {
    const id: nat
    const tenantId: string
    const policy: Gate.Policy
    const proposals: Repo.InMemoryLearningProposalRepository
    const playbooks: Playbooks.InMemoryPlaybookVersionsRepository
    const outbox: Outbox.InMemoryOutboxRepository<Body>

    ghost predicate Valid()
      reads proposals, playbooks, outbox
    {
      proposals.Valid() && playbooks.Valid() && outbox.Valid() && Outbox.IsUuid(tenantId)
    }

    ghost function Stores(): Concrete
      requires Valid()
      reads proposals, playbooks, outbox
    {
      Concrete(proposals.recordsById, proposals.nextToken, playbooks.records, outbox.Log(), tenantId)
    }

    /** The repositories are in this state of the protocol. */
    ghost predicate Holds(s: Sys)
      reads proposals, playbooks, outbox
    {
      Valid() && Matches(s, Stores())
    }

    constructor (id: nat, tenantId: string, policy: Gate.Policy, proposals: Repo.InMemoryLearningProposalRepository,
                 playbooks: Playbooks.InMemoryPlaybookVersionsRepository, outbox: Outbox.InMemoryOutboxRepository<Body>)
      ensures this.id == id && this.tenantId == tenantId && this.policy == policy
      ensures this.proposals == proposals && this.playbooks == playbooks && this.outbox == outbox
    {
      this.id, this.tenantId, this.policy := id, tenantId, policy;
      this.proposals, this.playbooks, this.outbox := proposals, playbooks, outbox;
    }

    // ── One repository call, one step of the protocol, whoever makes it ────

    /**
     * `evaluateLearningProposal` and `recordPromotionDecision`: whether the
     * proposal is stored as approved now. Evidence out of range throws.
     */
    method Record(w: nat, s: Sys) returns (eligible: bool, s': Sys)
      requires Holds(s) && PcOf(s, w).EvidenceRead? && PcOf(s, w).critique in s.proposals
      modifies proposals
      ensures Holds(s') && s' == Do(s, RecordDecision(w), policy)
      ensures var EvidenceRead(c, d, e) := PcOf(s, w);
              && PcOf(s', w) == (if eligible then Eligible(c, d) else Idle)
              && (eligible ==> c in s'.proposals && s'.proposals[c].status.Approved?)
    {
      ghost var before := Stores();
      var EvidenceRead(c, d, e) := PcOf(s, w);
      var reply := RecordEvidence(c, e, s.now);
      eligible := reply.Done? && reply.proposal.status.Approved?;
      RecordIs(s, before, w, policy, reply, proposals.recordsById);
      assert Stores() == before.(proposals := proposals.recordsById);
      s' := Do(s, RecordDecision(w), policy);
    }

    method RecordEvidence(c: nat, e: Gate.Evaluation, now: int) returns (reply: Repo.Reply)
      requires Valid()
      modifies proposals
      ensures Valid() && Stores() == old(Stores()).(proposals := proposals.recordsById)
      ensures Recorded(old(Stores()), proposals.recordsById, reply, c, e, policy, now)
    {
      match Gate.Evaluate(e, policy) {
        case None => reply := Repo.Refused;
        case Some(decision) => reply := proposals.RecordEvaluation(tenantId, c, e, decision, now);
      }
    }

    method Lease(w: nat, leaseMs: int, s: Sys) returns (granted: bool, s': Sys)
      requires Holds(s) && PcOf(s, w).Eligible? && PcOf(s, w).critique in s.proposals
      requires Repo.MIN_LEASE_MS <= leaseMs <= Repo.MAX_LEASE_MS
      modifies proposals
      ensures Holds(s') && s' == Do(s, TakeClaim(w, leaseMs), policy)
      ensures var Eligible(c, d) := PcOf(s, w);
              PcOf(s', w) == if granted then Claimed(c, d, Claim(s.nextToken, s.now + leaseMs)) else Idle
    {
      ghost var before := Stores();
      var reply := TakeLease(PcOf(s, w).critique, leaseMs, s.now);
      granted := reply.Done?;
      LeaseIs(s, before, w, leaseMs, policy, reply, Stores());
      s' := Do(s, TakeClaim(w, leaseMs), policy);
    }

    method TakeLease(c: nat, leaseMs: int, now: int) returns (reply: Repo.Reply)
      requires Valid() && Repo.MIN_LEASE_MS <= leaseMs <= Repo.MAX_LEASE_MS
      modifies proposals
      ensures Valid() && LeaseApplied(old(Stores()), Stores(), reply, c, leaseMs, now)
    {
      reply := proposals.ClaimPromotion(tenantId, c, leaseMs, now);
    }

    method ListPrior(w: nat, s: Sys) returns (prior: Option<nat>, s': Sys)
      requires Holds(s) && PcOf(s, w).Claimed? && KnowsIt(s, w)
      ensures Holds(s') && s' == Do(s, ListVersions(w), policy)
      ensures var Claimed(c, d, claim) := PcOf(s, w);
              PcOf(s', w) == if prior.Some? then HasVersion(c, d, claim, prior.value) else NoneFound(c, d, claim)
    {
      var Claimed(c, d, claim) := PcOf(s, w);
      IdsArePositive(playbooks.records, tenantId, d.playbookType);
      var list := playbooks.ListAll(tenantId, d.playbookType);
      prior := FindPrior(list, d.creator, Playbooks.Of(playbooks.records, tenantId, d.playbookType));
      ListIs(s, Stores(), w, policy, prior);
      s' := Do(s, ListVersions(w), policy);
    }

    method CreateNew(w: nat, s: Sys) returns (s': Sys)
      requires Holds(s) && PcOf(s, w).NoneFound? && KnowsIt(s, w)
      modifies playbooks
      ensures Holds(s') && s' == Do(s, CreateVersion(w), policy)
      ensures var NoneFound(c, d, claim) := PcOf(s, w);
              && PcOf(s', w).HasVersion? && PcOf(s', w).critique == c && PcOf(s', w).delivery == d
              && PcOf(s', w).claim == claim
    {
      ghost var before := Stores();
      var NoneFound(c, d, claim) := PcOf(s, w);
      var created := playbooks.Create(tenantId, d.playbookType, "rubric", d.creator);
      CreateIs(s, before, w, policy, created.value);
      assert Stores() == before.(records := before.records + [created.value]);
      s' := Do(s, CreateVersion(w), policy);
    }

    /** False when validation throws. */
    method EnqueueUpdated(w: nat, s: Sys) returns (ok: bool, s': Sys)
      requires Holds(s) && PcOf(s, w).HasVersion? && KnowsIt(s, w)
      modifies outbox
      ensures Holds(s') && s' == if ok then Do(s, EmitUpdate(w), policy) else s
      ensures var HasVersion(c, d, claim, v) := PcOf(s, w);
              ok && PcOf(s', w) == Emitted(c, d, claim, v) && UpdateKey(c, d.creator) in s'.updated
    {
      EventsAreAccepted(tenantId, PcOf(s, w).delivery.creator);
      ghost var before := Stores();
      var HasVersion(c, d, claim, v) := PcOf(s, w);
      EmitIs(s, before, w, policy);
      var stored := outbox.Enqueue(Outbox.Command(UpdateId(tenantId, d.creator), UpdatedBody(v)), s.now);
      ok := stored.Ok?;
      assert Stores() == before.(log := outbox.Log());
      s' := if ok then Do(s, EmitUpdate(w), policy) else s;
    }

    method MarkOnce(w: nat, s: Sys) returns (ok: bool, s': Sys)
      requires Holds(s) && PcOf(s, w).Emitted? && PcOf(s, w).critique in s.proposals
      modifies proposals
      ensures Holds(s') && s' == Do(s, Mark(w), policy) && PcOf(s', w).Idle?
      ensures ok ==> PromotedTo(s', PcOf(s, w).critique, PcOf(s, w).version)
      ensures ok <==> Attempt(s.proposals[PcOf(s, w).critique],
                              PromoteOp(PcOf(s, w).version, PcOf(s, w).claim.token, s.now)).Some?
    {
      ghost var before := Stores();
      var Emitted(c, d, claim, v) := PcOf(s, w);
      var reply := proposals.MarkPromoted(tenantId, c, v, claim.token, s.now);
      MarkIs(s, before, w, policy, reply, proposals.recordsById);
      assert Stores() == before.(proposals := proposals.recordsById);
      ok := reply.Done?;
      s' := Do(s, Mark(w), policy);
    }

    method Approve(c: nat, approver: string, s: Sys) returns (s': Sys)
      requires Holds(s) && c in s.proposals && NonEmptyText(approver) && Trim(approver) == approver
      modifies proposals
      ensures Holds(s') && s' == Do(s, HumanApproves(c, approver), policy)
    {
      ghost var before := Stores();
      var reply, threw := proposals.ApproveAndEnqueue(tenantId, c, approver, true, s.now);
      FounderIs(s, before, c, ApproveOp(approver, s.now), reply, proposals.recordsById);
      assert Stores() == before.(proposals := proposals.recordsById);
      FoundedIs(s, c, approver, 0, policy);
      s' := Do(s, HumanApproves(c, approver), policy);
    }

    method Withdraw(c: nat, v: nat, s: Sys) returns (s': Sys)
      requires Holds(s) && c in s.proposals
      modifies proposals
      ensures Holds(s') && s' == Do(s, RollBack(c, v), policy)
    {
      ghost var before := Stores();
      var reply := proposals.MarkRolledBack(tenantId, c, v, s.now);
      FounderIs(s, before, c, RollBackOp(v, s.now), reply, proposals.recordsById);
      assert Stores() == before.(proposals := proposals.recordsById);
      FoundedIs(s, c, "", v, policy);
      s' := Do(s, RollBack(c, v), policy);
    }

    /** `persistProposal`: the stored proposal of this critique, new or old; its key is trimmed. */
    method Persist(key: string, risk: Gate.Risk, s: Sys) returns (c: nat, s': Sys)
      requires Holds(s) && IsCritiqueKey(key)
      modifies proposals
      ensures Holds(s') && s' == Do(s, Propose(c, tenantId, Trim(key), risk), policy)
      ensures SpellsIn(key, s'.proposals, c)
    {
      ghost var before := Stores();
      TrimmedIsCritique(key);
      var reply := proposals.Create(tenantId, key, risk, s.now);
      c := reply.proposal.id;
      if c !in s.proposals {
        ProposingKeepsMatch(s, before, c, reply.proposal);
        assert Stores() == before.(proposals := proposals.recordsById);
      } else {
        assert Stores() == before;
      }
      s' := ProposeStep(s, c, tenantId, Trim(key), risk);
    }

    /** Anyone's step that calls the repositories, when it can be made. */
    method PerformWork(l: Label, s: Sys) returns (done: bool, s': Sys)
      requires Holds(s)
      modifies proposals, playbooks, outbox
      ensures Holds(s') && s' == if done then Do(s, l, policy) else s
    {
      done, s' := false, s;
      match l {
        case RecordDecision(w) =>
          if PcOf(s, w).EvidenceRead? && PcOf(s, w).critique in s.proposals {
            done := true;
            var eligible;
            eligible, s' := Record(w, s);
          }
        case TakeClaim(w, leaseMs) =>
          if PcOf(s, w).Eligible? && PcOf(s, w).critique in s.proposals
             && Repo.MIN_LEASE_MS <= leaseMs <= Repo.MAX_LEASE_MS
          {
            done := true;
            var granted;
            granted, s' := Lease(w, leaseMs, s);
          }
        case ListVersions(w) =>
          if PcOf(s, w).Claimed? && KnowsIt(s, w) {
            done := true;
            var prior;
            prior, s' := ListPrior(w, s);
          }
        case CreateVersion(w) =>
          if PcOf(s, w).NoneFound? && KnowsIt(s, w) {
            done := true;
            s' := CreateNew(w, s);
          }
        case EmitUpdate(w) =>
          if PcOf(s, w).HasVersion? && KnowsIt(s, w) {
            done, s' := EnqueueUpdated(w, s);
          }
        case Mark(w) =>
          if PcOf(s, w).Emitted? && PcOf(s, w).critique in s.proposals {
            done := true;
            var ok;
            ok, s' := MarkOnce(w, s);
          }
        case _ =>
      }
    }

    /** Any step of anyone; the step that was made is returned, None when it cannot be made. */
    method Perform(l: Label, s: Sys) returns (made: Option<Label>, s': Sys)
      requires Holds(s)
      modifies proposals, playbooks, outbox
      ensures Holds(s') && s' == if made.Some? then Do(s, made.value, policy) else s
      ensures made.Some? ==> forall w :: ByWorker(made.value, w) <==> ByWorker(l, w)
    {
      made, s' := None, s;
      match l {
        case Propose(_, tenant, key, risk) =>
          if tenant == tenantId && IsCritiqueKey(key) {
            var c;
            c, s' := Persist(key, risk, s);
            made := Some(Propose(c, tenantId, Trim(key), risk));
          }
        case HumanApproves(c, approver) =>
          if c in s.proposals && NonEmptyText(approver) && Trim(approver) == approver {
            s' := Approve(c, approver, s);
            made := Some(l);
          }
        case RollBack(c, v) =>
          if c in s.proposals {
            s' := Withdraw(c, v, s);
            made := Some(l);
          }
        case ReadEvidence(w, c, d, e) =>
          LocalStep(s, l);
          made, s' := Some(l), Do(s, l, policy);
        case Tick(elapsed) =>
          LocalStep(s, l);
          made, s' := Some(l), Do(s, l, policy);
        case Crash(w) =>
          LocalStep(s, l);
          made, s' := Some(l), Do(s, l, policy);
        case _ =>
          var done;
          done, s' := PerformWork(l, s);
          made := if done then Some(l) else None;
      }
    }

    /** Steps that call no repository. */
    lemma LocalStep(s: Sys, l: Label)
      requires Holds(s) && (l.ReadEvidence? || l.Tick? || l.Crash?)
      ensures Holds(Do(s, l, policy))
    {
      match l
      case ReadEvidence(w, c, d, e) => MovingKeepsMatch(s, Stores(), w, EvidenceRead(c, d, e));
      case Crash(w) => MovingKeepsMatch(s, Stores(), w, Idle);
      case Tick(elapsed) => assert Matches(s.(now := s.now + elapsed), Stores());
    }

    // ── Awaiting ───────────────────────────────────────────────────────────

    /** Since the start: these steps, this state, and this worker at this point of its work. */
    ghost predicate Stands(start: Sys, labels: seq<Label>, s: Sys, pc: Pc, job: Job)
      reads proposals, playbooks, outbox
    {
      match s
      case Sys(_, _, _, _, _, _) =>
        Holds(s) && PcOf(s, id) == pc && Reached(start, labels, s, job) && Later(start, s)
    }

    predicate IsJob(job: Job) {
      job.w == id && job.policy == policy
    }

    /** One more step of the run. */
    lemma Onwards(start: Sys, labels: seq<Label>, s: Sys, pc: Pc, l: Label, job: Job)
      requires Stands(start, labels, s, pc, job) && IsJob(job) && IsStep(l, job)
      ensures Reached(start, labels + [l], Do(s, l, policy), job) && Later(start, Do(s, l, policy))
    {
      Extend(start, labels, s, l, job);
      DoIsLater(s, l, policy);
    }

    /** What everyone else does while this worker waits. */
    method Interfere(a: Await, world: World, s: Sys) returns (ghost theirs: seq<Label>, s': Sys)
      requires Holds(s) && OthersOnly(world, id)
      modifies proposals, playbooks, outbox
      ensures Holds(s') && PcOf(s', id) == PcOf(s, id) && Later(s, s')
      ensures Steps.Reached(s, theirs, s', Under(policy), NotMine(id)) && (world.others(a) == [] ==> s' == s)
    {
      var others := world.others(a);
      theirs, s' := [], s;
      var i := 0;
      while i < |others|
        invariant i <= |others| && Holds(s') && PcOf(s', id) == PcOf(s, id) && Later(s, s')
        invariant Steps.Reached(s, theirs, s', Under(policy), NotMine(id)) && (others == [] ==> s' == s)
      {
        assert others[i] in world.others(a);
        theirs, s' := OneOther(others[i], s, theirs, s');
        i := i + 1;
      }
    }

    method OneOther(l: Label, ghost start: Sys, ghost labels: seq<Label>, s: Sys)
      returns (ghost more: seq<Label>, s': Sys)
      requires Holds(s) && !ByWorker(l, id) && Later(start, s)
      requires Steps.Reached(start, labels, s, Under(policy), NotMine(id))
      modifies proposals, playbooks, outbox
      ensures Holds(s') && PcOf(s', id) == PcOf(s, id) && Later(start, s')
      ensures Steps.Reached(start, more, s', Under(policy), NotMine(id))
    {
      more := labels;
      var made;
      made, s' := Perform(l, s);
      if made.Some? {
        OthersLeaveMe(s, made.value, id, policy);
        Steps.Extend(start, labels, s, made.value, Under(policy), NotMine(id));
        DoIsLater(s, made.value, policy);
        LaterComposes(start, s, s');
        more := labels + [made.value];
      }
    }

    method WaitFor(a: Await, world: World, start: Sys, ghost labels: seq<Label>, s: Sys, ghost pc: Pc, ghost job: Job)
      returns (ghost more: seq<Label>, s': Sys)
      requires Stands(start, labels, s, pc, job) && IsJob(job) && OthersOnly(world, id)
      modifies proposals, playbooks, outbox
      ensures Stands(start, more, s', pc, job) && Later(s, s') && (world.others(a) == [] ==> s' == s)
    {
      ghost var theirs;
      theirs, s' := Interfere(a, world, s);
      TheirsAreSteps(s, theirs, s', job);
      Join(start, labels, s, theirs, s', job);
      LaterComposes(start, s, s');
      more := labels + theirs;
    }

    lemma TheirsAreSteps(s: Sys, theirs: seq<Label>, s': Sys, job: Job)
      requires Steps.Reached(s, theirs, s', Under(policy), NotMine(id)) && IsJob(job)
      ensures Reached(s, theirs, s', job)
    {
      assert forall l :: NotMine(id)(l) ==> IsStep(l, job);
    }

    /** A throw that leaves the worker is the protocol's crash. */
    method Throw(start: Sys, ghost labels: seq<Label>, s: Sys, ghost pc: Pc, ghost job: Job)
      returns (ghost more: seq<Label>, s': Sys)
      requires Stands(start, labels, s, pc, job) && IsJob(job)
      ensures Stands(start, more, s', Idle, job) && s'.updated == s.updated
    {
      Onwards(start, labels, s, pc, Crash(id), job);
      LocalStep(s, Crash(id));
      more, s' := labels + [Crash(id)], Do(s, Crash(id), policy);
    }

    // ── The paths, one await after the other ───────────────────────────────

    /** `getEvaluation`: metrics from outside, risk and human approval as stored at that moment. */
    method TryEvidence(metrics: Gate.Evaluation, world: World, job: Job, start: Sys, ghost labels: seq<Label>, s: Sys)
      returns (pc: Pc, ghost more: seq<Label>, s': Sys)
      requires Stands(start, labels, s, Idle, job) && IsJob(job) && OthersOnly(world, id) && IsKnown(job, s)
      modifies proposals, playbooks, outbox
      ensures IsKnown(job, s') && Stands(start, more, s', pc, job)
      ensures pc.Idle? || (pc.EvidenceRead? && pc.critique == job.critique && pc.delivery == job.delivery)
      ensures IsSmooth(world) ==> SameProposals(s, s') && ReadsAbout(pc, metrics, job, s)
    {
      more, s' := WaitFor(AtEvidence, world, start, labels, s, Idle, job);
      pc := Idle;
      if !world.throws(AtEvidence) {
        pc, more, s' := ReadNow(metrics, job, start, more, s');
      }
    }

    /** The evidence is about the stored proposal. */
    predicate ReadsAbout(pc: Pc, metrics: Gate.Evaluation, job: Job, s: Sys)
      requires job.critique in s.proposals
    {
      var p := s.proposals[job.critique];
      pc == EvidenceRead(job.critique, job.delivery, metrics.(risk := p.risk, humanApproved := p.humanApprovedAt.Some?))
    }

    method ReadNow(metrics: Gate.Evaluation, job: Job, start: Sys, ghost labels: seq<Label>, s: Sys)
      returns (pc: Pc, ghost more: seq<Label>, s': Sys)
      requires Stands(start, labels, s, Idle, job) && IsJob(job) && IsKnown(job, s)
      ensures IsKnown(job, s') && Stands(start, more, s', pc, job)
      ensures pc.EvidenceRead? && pc.critique == job.critique && pc.delivery == job.delivery
      ensures SameProposals(s, s') && ReadsAbout(pc, metrics, job, s)
    {
      var p := s.proposals[job.critique];
      var e := metrics.(risk := p.risk, humanApproved := p.humanApprovedAt.Some?);
      var l := ReadEvidence(id, job.critique, job.delivery, e);
      Onwards(start, labels, s, Idle, l, job);
      LocalStep(s, l);
      pc, more, s' := EvidenceRead(job.critique, job.delivery, e), labels + [l], Do(s, l, policy);
    }

    /** `recordPromotionDecision`. */
    method TryRecord(e: Gate.Evaluation, world: World, job: Job, start: Sys, ghost labels: seq<Label>, s: Sys)
      returns (eligible: bool, ghost more: seq<Label>, s': Sys)
      requires Stands(start, labels, s, EvidenceRead(job.critique, job.delivery, e), job)
      requires IsJob(job) && OthersOnly(world, id) && IsKnown(job, s)
      modifies proposals, playbooks, outbox
      ensures Stands(start, more, s', if eligible then Eligible(job.critique, job.delivery) else Idle, job)
      ensures eligible ==> IsKnown(job, s') && s'.proposals[job.critique].status.Approved?
      ensures IsSmooth(world) ==> Decides(e, job, s, eligible, s')
    {
      ghost var pc := EvidenceRead(job.critique, job.delivery, e);
      more, s' := WaitFor(AtRecord, world, start, labels, s, pc, job);
      eligible := false;
      if world.throws(AtRecord) {
        more, s' := Throw(start, more, s', pc, job);
      } else {
        eligible, more, s' := RecordNow(e, job, start, more, s');
      }
    }

    /** The decision promotes exactly an open proposal whose evidence the gate lets through; it is free then. */
    ghost predicate Decides(e: Gate.Evaluation, job: Job, s: Sys, eligible: bool, s': Sys)
      requires job.critique in s.proposals
    {
      && (eligible <==> OpenAt(s.proposals[job.critique], s.now) && Gate.Evaluate(e, policy) == Some(Gate.Promote))
      && (eligible ==> IsFree(s', job.critique))
    }

    method RecordNow(e: Gate.Evaluation, job: Job, start: Sys, ghost labels: seq<Label>, s: Sys)
      returns (eligible: bool, ghost more: seq<Label>, s': Sys)
      requires Stands(start, labels, s, EvidenceRead(job.critique, job.delivery, e), job)
      requires IsJob(job) && IsKnown(job, s)
      modifies proposals
      ensures Stands(start, more, s', if eligible then Eligible(job.critique, job.delivery) else Idle, job)
      ensures eligible ==> IsKnown(job, s') && s'.proposals[job.critique].status.Approved?
      ensures Decides(e, job, s, eligible, s')
    {
      RecordDecides(s, id, policy);
      Onwards(start, labels, s, EvidenceRead(job.critique, job.delivery, e), RecordDecision(id), job);
      DoIsLater(s, RecordDecision(id), policy);
      more := labels + [RecordDecision(id)];
      eligible, s' := Record(id, s);
    }

    method TryLease(world: World, job: Job, start: Sys, ghost labels: seq<Label>, s: Sys)
      returns (pc: Pc, ghost more: seq<Label>, s': Sys)
      requires Stands(start, labels, s, Eligible(job.critique, job.delivery), job)
      requires IsJob(job) && OthersOnly(world, id) && IsKnown(job, s)
      modifies proposals, playbooks, outbox
      ensures IsKnown(job, s') && Stands(start, more, s', pc, job)
      ensures pc.Idle? || (pc.Claimed? && pc.critique == job.critique && pc.delivery == job.delivery)
      ensures IsSmooth(world) && IsFree(s, job.critique) ==> pc.Claimed? && IsHeld(s', job.critique, pc.claim)
    {
      more, s' := WaitFor(AtClaim, world, start, labels, s, Eligible(job.critique, job.delivery), job);
      if world.throws(AtClaim) {
        more, s' := Throw(start, more, s', Eligible(job.critique, job.delivery), job);
        pc := Idle;
      } else {
        pc, more, s' := LeaseNow(job, start, more, s');
      }
    }

    method LeaseNow(job: Job, start: Sys, ghost labels: seq<Label>, s: Sys)
      returns (pc: Pc, ghost more: seq<Label>, s': Sys)
      requires Stands(start, labels, s, Eligible(job.critique, job.delivery), job)
      requires IsJob(job) && IsKnown(job, s)
      modifies proposals
      ensures IsKnown(job, s') && Stands(start, more, s', pc, job)
      ensures pc.Idle? || (pc.Claimed? && pc.critique == job.critique && pc.delivery == job.delivery)
      ensures IsFree(s, job.critique) ==> pc.Claimed? && IsHeld(s', job.critique, pc.claim)
    {
      if IsFree(s, job.critique) {
        FreeIsClaimed(s, id, policy);
      }
      Onwards(start, labels, s, Eligible(job.critique, job.delivery), TakeClaim(id, LEASE_MS), job);
      DoIsLater(s, TakeClaim(id, LEASE_MS), policy);
      more := labels + [TakeClaim(id, LEASE_MS)];
      var granted;
      granted, s' := Lease(id, LEASE_MS, s);
      pc := PcOf(s', id);
    }

    method TryList(claim: Claim, world: World, job: Job, start: Sys, ghost labels: seq<Label>, s: Sys)
      returns (pc: Pc, ghost more: seq<Label>, s': Sys)
      requires Stands(start, labels, s, Claimed(job.critique, job.delivery, claim), job)
      requires IsJob(job) && OthersOnly(world, id) && IsKnown(job, s)
      modifies proposals, playbooks, outbox
      ensures IsKnown(job, s') && Stands(start, more, s', pc, job)
      ensures || pc.Idle? || pc == NoneFound(job.critique, job.delivery, claim)
              || HasVersionFor(pc, job, claim)
      ensures IsSmooth(world) && IsHeld(s, job.critique, claim) ==> !pc.Idle? && IsHeld(s', job.critique, claim)
    {
      ghost var at := Claimed(job.critique, job.delivery, claim);
      more, s' := WaitFor(AtList, world, start, labels, s, at, job);
      if world.throws(AtList) {
        more, s' := Throw(start, more, s', at, job);
        pc := Idle;
      } else {
        Onwards(start, more, s', at, ListVersions(id), job);
        DoIsLater(s', ListVersions(id), policy);
        KeepHeld(s', ListVersions(id), job.critique, claim);
        more := more + [ListVersions(id)];
        var prior;
        prior, s' := ListPrior(id, s');
        pc := PcOf(s', id);
      }
    }

    lemma KeepHeld(s: Sys, l: Label, c: nat, claim: Claim)
      requires l.ListVersions? || l.CreateVersion? || l.EmitUpdate?
      ensures IsHeld(s, c, claim) ==> IsHeld(Do(s, l, policy), c, claim)
    {
      if IsHeld(s, c, claim) {
        HeldStays(s, l, policy, c, claim);
      }
    }

    method TryCreate(claim: Claim, world: World, job: Job, start: Sys, ghost labels: seq<Label>, s: Sys)
      returns (pc: Pc, ghost more: seq<Label>, s': Sys)
      requires Stands(start, labels, s, NoneFound(job.critique, job.delivery, claim), job)
      requires IsJob(job) && OthersOnly(world, id) && IsKnown(job, s)
      modifies proposals, playbooks, outbox
      ensures IsKnown(job, s') && Stands(start, more, s', pc, job)
      ensures pc.Idle? || HasVersionFor(pc, job, claim)
      ensures IsSmooth(world) && IsHeld(s, job.critique, claim) ==> !pc.Idle? && IsHeld(s', job.critique, claim)
    {
      ghost var at := NoneFound(job.critique, job.delivery, claim);
      more, s' := WaitFor(AtCreate, world, start, labels, s, at, job);
      if world.throws(AtCreate) {
        more, s' := Throw(start, more, s', at, job);
        pc := Idle;
      } else {
        Onwards(start, more, s', at, CreateVersion(id), job);
        DoIsLater(s', CreateVersion(id), policy);
        KeepHeld(s', CreateVersion(id), job.critique, claim);
        more := more + [CreateVersion(id)];
        s' := CreateNew(id, s');
        pc := PcOf(s', id);
      }
    }

    /** The prior version of this critique, or a new one; idle when a call threw. */
    method ObtainVersion(claim: Claim, world: World, job: Job, start: Sys, ghost labels: seq<Label>, s: Sys)
      returns (pc: Pc, ghost more: seq<Label>, s': Sys)
      requires Stands(start, labels, s, Claimed(job.critique, job.delivery, claim), job)
      requires IsJob(job) && OthersOnly(world, id) && IsKnown(job, s)
      modifies proposals, playbooks, outbox
      ensures IsKnown(job, s') && Stands(start, more, s', pc, job)
      ensures pc.Idle? || HasVersionFor(pc, job, claim)
      ensures IsSmooth(world) && IsHeld(s, job.critique, claim) ==> !pc.Idle? && IsHeld(s', job.critique, claim)
    {
      pc, more, s' := TryList(claim, world, job, start, labels, s);
      if pc.NoneFound? {
        pc, more, s' := TryCreate(claim, world, job, start, more, s');
      }
    }

    method TryEmit(claim: Claim, v: nat, world: World, job: Job, start: Sys, ghost labels: seq<Label>, s: Sys)
      returns (ok: bool, ghost more: seq<Label>, s': Sys)
      requires Stands(start, labels, s, HasVersion(job.critique, job.delivery, claim, v), job)
      requires IsJob(job) && OthersOnly(world, id) && IsKnown(job, s)
      modifies proposals, playbooks, outbox
      ensures IsKnown(job, s') && (ok ==> EventFor(job) in s'.updated)
      ensures Stands(start, more, s', if ok then Emitted(job.critique, job.delivery, claim, v) else Idle, job)
      ensures IsSmooth(world) && IsHeld(s, job.critique, claim) ==> ok && IsHeld(s', job.critique, claim)
    {
      ghost var pc := HasVersion(job.critique, job.delivery, claim, v);
      more, s' := WaitFor(AtEmit, world, start, labels, s, pc, job);
      ok := !world.throws(AtEmit);
      if ok {
        Onwards(start, more, s', pc, EmitUpdate(id), job);
        DoIsLater(s', EmitUpdate(id), policy);
        KeepHeld(s', EmitUpdate(id), job.critique, claim);
        ok, s' := EnqueueUpdated(id, s');
        more := if ok then more + [EmitUpdate(id)] else more;
      }
      if !ok {
        more, s' := Throw(start, more, s', pc, job);
      }
    }

    method TryMark(claim: Claim, v: nat, world: World, job: Job, start: Sys, ghost labels: seq<Label>, s: Sys)
      returns (ok: bool, ghost more: seq<Label>, s': Sys)
      requires Stands(start, labels, s, Emitted(job.critique, job.delivery, claim, v), job)
      requires IsJob(job) && OthersOnly(world, id) && IsKnown(job, s)
      modifies proposals, playbooks, outbox
      ensures Stands(start, more, s', Idle, job) && (ok ==> PromotedTo(s', job.critique, v))
      ensures EventFor(job) in s.updated ==> EventFor(job) in s'.updated
      ensures IsSmooth(world) && IsHeld(s, job.critique, claim) ==> ok
    {
      more, s' := WaitFor(AtMark, world, start, labels, s, Emitted(job.critique, job.delivery, claim, v), job);
      if world.throws(AtMark) {
        ok := false;
        more, s' := Throw(start, more, s', Emitted(job.critique, job.delivery, claim, v), job);
      } else {
        ok, more, s' := MarkNow(claim, v, job, start, more, s');
      }
    }

    method MarkNow(claim: Claim, v: nat, job: Job, start: Sys, ghost labels: seq<Label>, s: Sys)
      returns (ok: bool, ghost more: seq<Label>, s': Sys)
      requires Stands(start, labels, s, Emitted(job.critique, job.delivery, claim, v), job) && IsJob(job)
      requires IsKnown(job, s)
      modifies proposals
      ensures Stands(start, more, s', Idle, job) && (ok ==> PromotedTo(s', job.critique, v))
      ensures EventFor(job) in s.updated ==> EventFor(job) in s'.updated
      ensures IsHeld(s, job.critique, claim) ==> ok
    {
      if IsHeld(s, job.critique, claim) {
        HeldIsMarked(s, job.critique, claim, v);
      }
      Onwards(start, labels, s, Emitted(job.critique, job.delivery, claim, v), Mark(id), job);
      DoIsLater(s, Mark(id), policy);
      more := labels + [Mark(id)];
      ok, s' := MarkOnce(id, s);
    }

    method LookAgain(c: nat, v: nat, s: Sys) returns (yes: bool)
      requires Holds(s)
      ensures yes <==> PromotedTo(s, c, v)
    {
      var current := proposals.FindScopedRecord(tenantId, c);
      yes := current.Some? && current.value.status.Promoted? && current.value.promotedVersionRef == Some(v);
    }

    /**
     * `markProposalPromoted`: a refused mark is looked into; false when nobody
     * promoted to this version, or a call threw.
     */
    method MarkProposalPromoted(claim: Claim, v: nat, world: World, job: Job, start: Sys, ghost labels: seq<Label>,
                                s: Sys)
      returns (ok: bool, ghost more: seq<Label>, s': Sys)
      requires Stands(start, labels, s, Emitted(job.critique, job.delivery, claim, v), job)
      requires IsJob(job) && OthersOnly(world, id) && IsKnown(job, s)
      modifies proposals, playbooks, outbox
      ensures Stands(start, more, s', Idle, job) && (ok ==> PromotedTo(s', job.critique, v))
      ensures EventFor(job) in s.updated ==> EventFor(job) in s'.updated
      ensures IsSmooth(world) && IsHeld(s, job.critique, claim) ==> ok
    {
      ok, more, s' := TryMark(claim, v, world, job, start, labels, s);
      if !ok && !world.throws(AtMark) {
        ok, more, s' := TryLook(v, world, job, start, more, s');
      }
    }

    method TryLook(v: nat, world: World, job: Job, start: Sys, ghost labels: seq<Label>, s: Sys)
      returns (ok: bool, ghost more: seq<Label>, s': Sys)
      requires Stands(start, labels, s, Idle, job) && IsJob(job) && OthersOnly(world, id)
      modifies proposals, playbooks, outbox
      ensures Stands(start, more, s', Idle, job) && (ok ==> PromotedTo(s', job.critique, v))
      ensures EventFor(job) in s.updated ==> EventFor(job) in s'.updated
    {
      more, s' := WaitFor(AtLook, world, start, labels, s, Idle, job);
      ok := false;
      if !world.throws(AtLook) {
        ok := LookAgain(job.critique, v, s');
      }
    }

    /** The update event first, then the mark: true only when both are there. */
    method Announce(claim: Claim, v: nat, world: World, job: Job, start: Sys, ghost labels: seq<Label>, s: Sys)
      returns (ok: bool, ghost more: seq<Label>, s': Sys)
      requires Stands(start, labels, s, HasVersion(job.critique, job.delivery, claim, v), job)
      requires IsJob(job) && OthersOnly(world, id) && IsKnown(job, s)
      modifies proposals, playbooks, outbox
      ensures Stands(start, more, s', Idle, job)
      ensures ok ==> PromotedTo(s', job.critique, v) && EventFor(job) in s'.updated
      ensures IsSmooth(world) && IsHeld(s, job.critique, claim) ==> ok
    {
      ok, more, s' := TryEmit(claim, v, world, job, start, labels, s);
      if ok {
        ok, more, s' := MarkProposalPromoted(claim, v, world, job, start, more, s');
      }
    }

    /** `promotePlaybookChange` for an eligible proposal; the version it promoted to, or None. */
    method PromotePlaybookChange(world: World, job: Job, start: Sys, ghost labels: seq<Label>, s: Sys)
      returns (version: Option<nat>, ghost more: seq<Label>, s': Sys)
      requires Stands(start, labels, s, Eligible(job.critique, job.delivery), job)
      requires IsJob(job) && OthersOnly(world, id) && IsKnown(job, s)
      modifies proposals, playbooks, outbox
      ensures Stands(start, more, s', Idle, job)
      ensures version.Some? ==> PromotedTo(s', job.critique, version.value) && EventFor(job) in s'.updated
      ensures IsSmooth(world) && IsFree(s, job.critique) ==> version.Some?
    {
      version := None;
      var pc;
      pc, more, s' := TryLease(world, job, start, labels, s);
      if pc.Claimed? {
        var claim := pc.claim;
        pc, more, s' := ObtainVersion(claim, world, job, start, more, s');
        if pc.HasVersion? {
          var v, ok := pc.version, false;
          ok, more, s' := Announce(claim, v, world, job, start, more, s');
          version := if ok then Some(v) else None;
        }
      }
    }

    /** From the evidence on; only a decision recorded as an approval promotes. */
    method DecideAndPromote(metrics: Gate.Evaluation, world: World, job: Job, start: Sys, ghost labels: seq<Label>,
                            s: Sys)
      returns (version: Option<nat>, ghost more: seq<Label>, s': Sys)
      requires Stands(start, labels, s, Idle, job) && IsJob(job) && OthersOnly(world, id) && IsKnown(job, s)
      modifies proposals, playbooks, outbox
      ensures Stands(start, more, s', Idle, job)
      ensures version.Some? ==> PromotedTo(s', job.critique, version.value) && EventFor(job) in s'.updated
      ensures IsSmooth(world) ==> (version.Some? <==> Convinces(metrics, s.proposals[job.critique], policy, s.now))
    {
      version := None;
      var pc, eligible;
      pc, more, s' := TryEvidence(metrics, world, job, start, labels, s);
      if pc.EvidenceRead? {
        eligible, more, s' := TryRecord(pc.evaluation, world, job, start, more, s');
        if eligible {
          version, more, s' := PromotePlaybookChange(world, job, start, more, s');
        }
      }
    }

    /** The proposal's announcement; nothing to the protocol. False when it throws. */
    method AnnounceProposal(key: string, s: Sys) returns (ok: bool)
      requires Holds(s) && IsCritiqueKey(key)
      modifies outbox
      ensures Holds(s) && ok
    {
      EventsAreAccepted(tenantId, key);
      ghost var before := Stores();
      TypesDiffer();
      OtherEventKeepsMatch(s, before, ProposedId(tenantId, key), s.now);
      var stored := outbox.Enqueue(Outbox.Command(ProposedId(tenantId, key), OtherBody), s.now);
      assert Stores() == before.(log := outbox.Log());
      ok := stored.Ok?;
    }

    method TryAnnounce(world: World, job: Job, start: Sys, ghost labels: seq<Label>, s: Sys)
      returns (ok: bool, ghost more: seq<Label>, s': Sys)
      requires Stands(start, labels, s, Idle, job) && IsJob(job) && OthersOnly(world, id) && IsKnown(job, s)
      modifies proposals, playbooks, outbox
      ensures Stands(start, more, s', Idle, job) && IsKnown(job, s')
      ensures IsSmooth(world) ==> ok && s' == s
    {
      more, s' := WaitFor(AtAnnounce, world, start, labels, s, Idle, job);
      ok := false;
      if !world.throws(AtAnnounce) {
        ok := AnnounceProposal(job.delivery.creator, s');
      }
    }

    /** Store the proposal; the job is then about it. */
    method StoreProposal(d: Delivery, risk: Gate.Risk, s: Sys) returns (job: Job, ghost l: Label, s': Sys)
      requires Holds(s) && PcOf(s, id).Idle? && IsCritiqueKey(d.creator)
      modifies proposals
      ensures job == Job(id, job.critique, d, policy) && l.Propose? && s' == Do(s, l, policy)
      ensures Holds(s') && PcOf(s', id).Idle? && IsKnown(job, s') && Later(s, s')
      ensures IsProposalOf(s, s', job.critique, d, risk)
    {
      var c;
      c, s' := Persist(d.creator, risk, s);
      l := Propose(c, tenantId, Trim(d.creator), risk);
      job := Job(id, c, d, policy);
      DoIsLater(s, l, policy);
      OthersLeaveMe(s, l, id, policy);
      TheProposal(s, s', c, d, risk);
    }

    /** The proposal stored for a delivery: the one with its trimmed key, or a new one. */
    function ProposalFor(s: Sys, c: nat, d: Delivery, risk: Gate.Risk): Proposal {
      if c in s.proposals then s.proposals[c] else NewProposal(c, tenantId, Trim(d.creator), risk, s.now)
    }

    ghost predicate IsProposalOf(s: Sys, s': Sys, c: nat, d: Delivery, risk: Gate.Risk) {
      match d
      case Delivery(_, creator) =>
        && s'.now == s.now && c in s'.proposals && s'.proposals[c] == ProposalFor(s, c, d, risk)
        && forall e {:trigger e in s.proposals} | e in s.proposals && s.proposals[e].proposalKey == Trim(creator) ::
             e == c
    }

    lemma TheProposal(s: Sys, s': Sys, c: nat, d: Delivery, risk: Gate.Risk)
      requires s' == ProposeStep(s, c, tenantId, Trim(d.creator), risk) && SpellsIn(d.creator, s'.proposals, c)
      requires OneTenant(s'.proposals, tenantId)
      ensures IsProposalOf(s, s', c, d, risk)
    {
      forall e | e in s.proposals && s.proposals[e].proposalKey == Trim(d.creator)
        ensures e == c
      {
        assert e in s'.proposals;
      }
    }

    method TryStore(d: Delivery, risk: Gate.Risk, world: World, s: Sys)
      returns (stored: bool, job: Job, ghost labels: seq<Label>, s': Sys)
      requires Holds(s) && PcOf(s, id).Idle? && OthersOnly(world, id) && IsCritiqueKey(d.creator)
      modifies proposals, playbooks, outbox
      ensures job == Job(id, job.critique, d, policy) && Stands(s, labels, s', Idle, job)
      ensures stored ==> IsKnown(job, s')
      ensures IsSmooth(world) ==> stored && IsProposalOf(s, s', job.critique, d, risk)
    {
      labels, s' := Interfere(AtStore, world, s);
      stored, job := !world.throws(AtStore), Job(id, 0, d, policy);
      ghost var theirs, mid := labels, s';
      if stored {
        ghost var l;
        job, l, s' := StoreProposal(d, risk, s');
        TheirsAreSteps(s, theirs, mid, job);
        Extend(s, theirs, mid, l, job);
        LaterComposes(s, mid, s');
        labels := theirs + [l];
      } else {
        TheirsAreSteps(s, theirs, mid, job);
      }
    }

    /** There is evidence, and it is enough to promote the stored proposal. */
    predicate Suffices(metrics: Option<Gate.Evaluation>, s: Sys, c: nat) {
      match metrics
      case None => false
      case Some(m) => c in s.proposals && Convinces(m, s.proposals[c], policy, s.now)
    }

    /** After the proposal is stored: announce it, then evidence and decision. */
    method AfterStore(metrics: Option<Gate.Evaluation>, world: World, job: Job, start: Sys, ghost labels: seq<Label>,
                      s: Sys)
      returns (version: Option<nat>, ghost more: seq<Label>, s': Sys)
      requires Stands(start, labels, s, Idle, job) && IsJob(job) && OthersOnly(world, id)
      requires IsCritiqueKey(job.delivery.creator) && IsKnown(job, s)
      modifies proposals, playbooks, outbox
      ensures Stands(start, more, s', Idle, job)
      ensures version.Some? ==>
                PromotedTo(s', job.critique, version.value) && EventFor(job) in s'.updated && metrics.Some?
      ensures IsSmooth(world) ==> (version.Some? <==> Suffices(metrics, s, job.critique))
    {
      version := None;
      var ok;
      ok, more, s' := TryAnnounce(world, job, start, labels, s);
      if ok && metrics.Some? {
        version, more, s' := DecideAndPromote(metrics.value, world, job, start, more, s');
      }
    }

    /**
     * `processFromCritique`: for a corrective verdict on an artifact with a
     * playbook, store the proposal, announce it, then evidence and decision.
     * An empty critique id is rejected. The job names the stored proposal.
     */
    method ProcessFromCritique(critiqueId: string, approved: bool, t: Option<PlaybookType>, risk: Gate.Risk,
                               metrics: Option<Gate.Evaluation>, world: World, s: Sys)
      returns (version: Option<nat>, job: Job, ghost labels: seq<Label>, s': Sys)
      requires Holds(s) && PcOf(s, id).Idle? && OthersOnly(world, id)
      modifies proposals, playbooks, outbox
      ensures Stands(s, labels, s', Idle, job) && IsJob(job)
      ensures critiqueId == "" || approved || t.None? ==> labels == [] && s' == s && version.None?
      ensures version.Some? ==>
                && job.delivery == Delivery(t.value, CRITIQUE + critiqueId) && IsKnown(job, s') && metrics.Some?
                && PromotedTo(s', job.critique, version.value) && EventFor(job) in s'.updated
      ensures IsSmooth(world) && critiqueId != "" && !approved && t.Some? ==>
                LearnsFrom(version, s, job.critique, Delivery(t.value, CRITIQUE + critiqueId), risk, metrics)
    {
      version := None;
      if critiqueId == "" || approved || t.None? {
        job, labels, s' := Job(id, 0, Delivery(Playbooks.Custom, CRITIQUE + critiqueId), policy), [], s;
        return;
      }
      version, job, labels, s' := LearnFrom(Delivery(t.value, CRITIQUE + critiqueId), risk, metrics, world, s);
    }

    /** A version comes of it exactly when there is evidence enough for the delivery's own proposal, stored or new. */
    ghost predicate LearnsFrom(version: Option<nat>, s: Sys, c: nat, d: Delivery, risk: Gate.Risk,
                               metrics: Option<Gate.Evaluation>) {
      && (forall e {:trigger e in s.proposals} | e in s.proposals && s.proposals[e].proposalKey == Trim(d.creator) ::
            e == c)
      && (version.Some? <==>
            metrics.Some? && Convinces(metrics.value, ProposalFor(s, c, d, risk), policy, s.now))
    }

    method LearnFrom(d: Delivery, risk: Gate.Risk, metrics: Option<Gate.Evaluation>, world: World, s: Sys)
      returns (version: Option<nat>, job: Job, ghost labels: seq<Label>, s': Sys)
      requires Holds(s) && PcOf(s, id).Idle? && OthersOnly(world, id) && IsCritiqueKey(d.creator)
      modifies proposals, playbooks, outbox
      ensures Stands(s, labels, s', Idle, job) && job == Job(id, job.critique, d, policy)
      ensures version.Some? ==>
                && IsKnown(job, s') && metrics.Some?
                && PromotedTo(s', job.critique, version.value) && EventFor(job) in s'.updated
      ensures IsSmooth(world) ==> LearnsFrom(version, s, job.critique, d, risk, metrics)
    {
      version := None;
      var stored;
      stored, job, labels, s' := TryStore(d, risk, world, s);
      if stored {
        version, labels, s' := GoOn(metrics, world, job, s, labels, s');
      }
    }

    /** The rest as a run of its own, so that the proposal is still known at its end. */
    method GoOn(metrics: Option<Gate.Evaluation>, world: World, job: Job, start: Sys, ghost labels: seq<Label>, s: Sys)
      returns (version: Option<nat>, ghost all: seq<Label>, s': Sys)
      requires Stands(start, labels, s, Idle, job) && IsJob(job) && OthersOnly(world, id)
      requires IsCritiqueKey(job.delivery.creator) && IsKnown(job, s)
      modifies proposals, playbooks, outbox
      ensures Stands(start, all, s', Idle, job) && IsKnown(job, s')
      ensures version.Some? ==>
                PromotedTo(s', job.critique, version.value) && EventFor(job) in s'.updated && metrics.Some?
      ensures IsSmooth(world) ==> (version.Some? <==> Suffices(metrics, s, job.critique))
    {
      ghost var more;
      version, more, s' := AfterStore(metrics, world, job, s, [], s);
      Join(start, labels, s, more, s', job);
      LaterComposes(start, s, s');
      all := labels + more;
    }

    /** `processApprovedProposal`: the proposal must be approved, and evidence is read again. */
    method ProcessApprovedProposal(c: nat, d: Delivery, metrics: Option<Gate.Evaluation>, world: World, s: Sys)
      returns (version: Option<nat>, ghost labels: seq<Label>, s': Sys)
      requires Holds(s) && PcOf(s, id).Idle? && OthersOnly(world, id)
      requires c in s.proposals ==> Spells(d.creator, s.proposals[c].proposalKey)
      modifies proposals, playbooks, outbox
      ensures Stands(s, labels, s', Idle, Job(id, c, d, policy))
      ensures version.Some? ==> PromotedTo(s', c, version.value) && UpdateKey(c, d.creator) in s'.updated
      ensures version.Some? ==> c in s.proposals && s.proposals[c].status.Approved? && metrics.Some?
      ensures IsSmooth(world) ==>
                (version.Some? <==> c in s.proposals && s.proposals[c].status.Approved? && Suffices(metrics, s, c))
    {
      version, labels, s' := None, [], s;
      var stored := proposals.FindScopedRecord(tenantId, c);
      if stored.None? || stored.value.status != Approved || metrics.None? {
        return;
      }
      version, labels, s' := DecideAndPromote(metrics.value, world, Job(id, c, d, policy), s, [], s);
    }
  }

  // ── What every execution keeps ───────────────────────────────────────────

  /** Every execution keeps governance and the announcement of promotions; disciplined ones keep one version each. */
  lemma ExecutionKeepsInvariants(start: Sys, labels: seq<Label>, s: Sys, job: Job, kinds: Once.Kinds)
    requires Reached(start, labels, s, job)
    ensures GovernanceInv(start, job.policy) ==> GovernanceInv(s, job.policy)
    ensures EventInv(start) ==> EventInv(s)
    ensures Once.Inv(start, kinds) && Once.Disciplined(start, labels, job.policy, kinds) ==> Once.Inv(s, kinds)
  {
    if GovernanceInv(start, job.policy) {
      RunKeepsGovernance(start, labels, job.policy);
    }
    if EventInv(start) {
      RunKeepsEvents(start, labels, job.policy);
    }
    if Once.Inv(start, kinds) && Once.Disciplined(start, labels, job.policy, kinds) {
      Once.RunKeepsInv(start, labels, job.policy, kinds);
    }
  }

  /** There, the playbook store holds at most one record for each proposal, whatever its type or spelling. */
  lemma OneRecordPerCritique(s: Sys, k: Concrete, kinds: Once.Kinds, c: nat, i: nat, j: nat)
    requires Matches(s, k) && Once.Inv(s, kinds) && c in s.proposals && i < |k.records| && j < |k.records|
    requires Spells(k.records[i].createdBy, s.proposals[c].proposalKey)
    requires Spells(k.records[j].createdBy, s.proposals[c].proposalKey)
    ensures i == j
  {
    IsRecordOf(s, k, c, i);
    IsRecordOf(s, k, c, j);
    Once.InvMeansOneVersion(s, kinds, c);
  }

  lemma IsRecordOf(s: Sys, k: Concrete, c: nat, i: nat)
    requires Matches(s, k) && c in s.proposals && i < |k.records|
    requires Spells(k.records[i].createdBy, s.proposals[c].proposalKey)
    ensures CreatedBy(s.versions, c, i)
  {
    assert SameVersion(s.versions[i], k.records[i], i, s.proposals, k.tenantId);
  }
}
