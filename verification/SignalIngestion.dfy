/**
 * Any number of signal-router replicas over the durable inbox and the outbox
 * (`processTenant`, `processSignal`,
 * apps/worker-signal-router/src/signal-ingestion-worker.ts; `classifySignal`,
 * `route`, apps/worker-signal-router/src/signal-router.ts).
 *
 * Every await is a step: replicas interleave, leases expire and overlap, a
 * replica fails or crashes anywhere, and the publisher and other producers
 * share the outbox. Every processed signal has exactly one `signal.routed.v1`
 * row and exactly one downstream row.
 */
module SignalIngestion {
  import opened Text
  import Inbox = SignalInbox
  import opened Outbox

  // ── Classification ───────────────────────────────────────────────────────

  /** The string-valued fields of a payload that can name the kind. */
  datatype Payload = Payload(kind: Option<string>, eventKind: Option<string>, metadataKind: Option<string>)

  type Signal = Inbox.Signal<Payload>

  datatype Priority = P0 | P1 | P2 | P3

  datatype Agent = WarmOutboundResearcher | IntelDirector | LearningDirector

  datatype Route = Route(priority: Priority, agent: Agent, halfLifeMinutes: nat)

  function NonEmptyString(v: Option<string>): Option<string> {
    if v.Some? && Trim(v.value) != "" then Some(Trim(v.value)) else None
  }

  function TypeName(t: Inbox.SignalType): string {
    match t
    case Competitive => "competitive"
    case Community => "community"
    case Icp => "icp"
    case Product => "product"
    case Market => "market"
    case Internal => "internal"
  }

  /** `resolveSignalKind` */
  function KindOf(s: Signal): (kind: string)
    ensures kind != ""
  {
    var p := s.payload;
    if NonEmptyString(p.kind).Some? then NonEmptyString(p.kind).value
    else if NonEmptyString(p.eventKind).Some? then NonEmptyString(p.eventKind).value
    else if NonEmptyString(p.metadataKind).Some? then NonEmptyString(p.metadataKind).value
    else "signal." + TypeName(s.signalType)
  }

  /** The first of the three fields that is a text with something in it, trimmed; else the type's own name. */
  lemma KindIsTheFirstName(s: Signal, j: nat)
    requires j <= 3
    requires var names := [s.payload.kind, s.payload.eventKind, s.payload.metadataKind];
             && (forall l | 0 <= l < j :: names[l].None? || Trim(names[l].value) == "")
             && (j < 3 ==> names[j].Some? && Trim(names[j].value) != "")
    ensures var names := [s.payload.kind, s.payload.eventKind, s.payload.metadataKind];
            KindOf(s) == if j < 3 then Trim(names[j].value) else "signal." + TypeName(s.signalType)
  {
    var names := [s.payload.kind, s.payload.eventKind, s.payload.metadataKind];
    assert names[0] == s.payload.kind && names[1] == s.payload.eventKind && names[2] == s.payload.metadataKind;
  }

  function Classify(kind: string): Route {
    if kind == "prospect.replied" then Route(P0, WarmOutboundResearcher, 30)
    else if kind == "competitor.pricing_change" then Route(P1, IntelDirector, 120)
    else if kind == "approval.rejected" then Route(P2, LearningDirector, 1440)
    else Route(P2, IntelDirector, 1440)
  }

  // ── Commands ─────────────────────────────────────────────────────────────

  /** The grade stands for everything that differs between replays: a language model's answer, times. */
  datatype Body =
    | RoutedBody(signalId: nat, kind: string, route: Route, grade: Option<int>)
    | BriefBody(signalId: nat, kind: string, priority: Priority)
    | WorkBody(signalId: nat, kind: string, route: Route)
    | OtherBody

  type Log = seq<Row<Body>>

  datatype EventType = SignalRouted | BriefRequested | WorkRequested

  function EventTypeName(t: EventType): string {
    match t
    case SignalRouted => "signal.routed.v1"
    case BriefRequested => "intel_brief.requested.v1"
    case WorkRequested => "agent.work.requested.v1"
  }

  function AgentName(a: Agent): string {
    match a
    case WarmOutboundResearcher => "warm_outbound_researcher"
    case IntelDirector => "intel_director"
    case LearningDirector => "learning_director"
  }

  function RoutedId(s: Signal): Identity {
    Identity(s.tenantId, EventTypeName(SignalRouted), "signal:" + Decimal(s.id))
  }

  function BriefId(s: Signal): Identity {
    Identity(s.tenantId, EventTypeName(BriefRequested), "intel-brief-request:" + Decimal(s.id))
  }

  function WorkId(s: Signal, a: Agent): Identity {
    Identity(s.tenantId, EventTypeName(WorkRequested), "agent-work:" + AgentName(a) + [':'] + Decimal(s.id))
  }

  /** What `route` enqueues. */
  function RouteCommand(s: Signal, grade: Option<int>): Command<Body> {
    Command(RoutedId(s), RoutedBody(s.id, KindOf(s), Classify(KindOf(s)), grade))
  }

  /** What `processSignal` enqueues downstream. */
  function RequestCommand(s: Signal): Command<Body> {
    var route := Classify(KindOf(s));
    if route.agent.IntelDirector? then Command(BriefId(s), BriefBody(s.id, KindOf(s), route.priority))
    else Command(WorkId(s, route.agent), WorkBody(s.id, KindOf(s), route))
  }

  lemma EventTypesDiffer(t: EventType, u: EventType)
    requires EventTypeName(t) == EventTypeName(u)
    ensures t == u
  {
    assert EventTypeName(t)[0] == EventTypeName(u)[0];
  }

  lemma AgentHasNoColon(a: Agent)
    ensures ':' !in AgentName(a)
  {
  }

  lemma DecimalKeyInjective(prefix: string, m: nat, n: nat)
    requires prefix + Decimal(m) == prefix + Decimal(n)
    ensures m == n
  {
    PrefixIsInjective(prefix, Decimal(m), Decimal(n));
    DecimalInjective(m, n);
  }

  lemma WorkKeyInjective(prefix: string, a: Agent, m: nat, b: Agent, n: nat)
    requires prefix + AgentName(a) + [':'] + Decimal(m) == prefix + AgentName(b) + [':'] + Decimal(n)
    ensures m == n
  {
    AgentHasNoColon(a);
    AgentHasNoColon(b);
    PrefixOfJoin(prefix, AgentName(a), Decimal(m), AgentName(b), Decimal(n));
    JoinInjective(':', AgentName(a), Decimal(m), AgentName(b), Decimal(n));
    DecimalInjective(m, n);
  }

  /** A key names one signal, within its event type. */
  lemma IdentityNamesSignal(s: Signal, q: Signal)
    ensures RoutedId(s) == RoutedId(q) ==> s.id == q.id
    ensures RequestCommand(s).identity == RequestCommand(q).identity ==> s.id == q.id
    ensures RoutedId(s) != RequestCommand(q).identity
  {
    if RoutedId(s) == RequestCommand(q).identity {
      EventTypesDiffer(SignalRouted,
                       if Classify(KindOf(q)).agent.IntelDirector? then BriefRequested else WorkRequested);
    }
    if RoutedId(s) == RoutedId(q) {
      DecimalKeyInjective("signal:", s.id, q.id);
    }
    if RequestCommand(s).identity == RequestCommand(q).identity {
      RequestKeyNamesSignal(s, q);
    }
  }

  lemma RequestKeyNamesSignal(s: Signal, q: Signal)
    requires RequestCommand(s).identity == RequestCommand(q).identity
    ensures s.id == q.id
  {
    var a, b := Classify(KindOf(s)).agent, Classify(KindOf(q)).agent;
    EventTypesDiffer(if a.IntelDirector? then BriefRequested else WorkRequested,
                     if b.IntelDirector? then BriefRequested else WorkRequested);
    if a.IntelDirector? {
      DecimalKeyInjective("intel-brief-request:", s.id, q.id);
    } else {
      WorkKeyInjective("agent-work:", a, s.id, b, q.id);
    }
  }

  // ── Validation on the way ────────────────────────────────────────────────

  /** What `processSignal` hands to the router. */
  datatype Incoming = Incoming(tenantId: string, signalId: string, dedupeKey: string, source: string, kind: string)

  function IncomingOf(s: Signal): Incoming {
    Incoming(s.tenantId, Decimal(s.id), RoutedId(s).idempotencyKey, s.source, KindOf(s))
  }

  /** `incomingSignalSchema` */
  predicate RouterAccepts(i: Incoming) {
    IsUuid(i.tenantId) && i.signalId != "" && i.dedupeKey != "" && i.source != "" && i.kind != ""
  }

  /** What `routedSignalSchema` adds. */
  predicate RouteAccepted(r: Route) {
    AgentName(r.agent) != "" && r.halfLifeMinutes > 0
  }

  lemma EventTypesAreValid(t: EventType)
    ensures IsEventType(EventTypeName(t))
  {
    match t
    case SignalRouted => assert IsEventTypeSplit(EventTypeName(t), 13);
    case BriefRequested => assert IsEventTypeSplit(EventTypeName(t), 21);
    case WorkRequested => assert IsEventTypeSplit(EventTypeName(t), 20);
  }

  /** The outbox takes every row about a signal of a valid tenant. */
  lemma EventsAreAccepted(s: Signal, grade: Option<int>)
    requires IsUuid(s.tenantId)
    ensures ValidIdentity(RouteCommand(s, grade).identity) && ValidIdentity(RequestCommand(s).identity)
  {
    EventTypesAreValid(SignalRouted);
    EventTypesAreValid(BriefRequested);
    EventTypesAreValid(WorkRequested);
  }

  /** No stored signal is rejected on its way: not by the router, and not by the outbox. */
  lemma StoredSignalIsRoutable(s: Signal, grade: Option<int>)
    requires Inbox.GoodSignal(s)
    ensures RouterAccepts(IncomingOf(s)) && RouteAccepted(Classify(KindOf(s)))
    ensures ValidIdentity(RouteCommand(s, grade).identity) && ValidIdentity(RequestCommand(s).identity)
  {
    EventsAreAccepted(s, grade);
    StoredSignalIsIncoming(s);
  }

  lemma StoredSignalIsIncoming(s: Signal)
    requires Inbox.GoodSignal(s)
    ensures RouterAccepts(IncomingOf(s)) && RouteAccepted(Classify(KindOf(s)))
  {
    var i := IncomingOf(s);
    assert i.kind == KindOf(s) && i.source == s.source && i.tenantId == s.tenantId;
    assert |i.dedupeKey| == |"signal:"| + |Decimal(s.id)|;
    assert AgentName(Classify(KindOf(s)).agent) != "";
  }
}
