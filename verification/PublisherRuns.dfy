/**
 * What happens while a publisher handles a row, as a run of
 * `DispatchProtocol`: its own steps, which follow one of a few scripts, and
 * between them whatever other workers, callbacks and producers do.
 */
module PublisherRuns {
  import opened Text
  import opened Outbox
  import opened DispatchProtocol
  import opened DispatchStore
  import EA = ExternalActions
  import Repo = ExternalActionsRepository
  import Steps

  datatype Provider = Accepts | Retryable(code: string) | Refuses(code: string) | Throws

  /** What became of one row of the batch. */
  datatype Fate = WasConsumed | WasDeferred | ThrewUp

  datatype Config = Config(
    incidentsConfigured: bool,
    healthConfigured: bool,
    dispatchConfigured: bool,
    workerId: string,
    leaseMs: int,
    retryBackoffMs: int)

  /** Where the publisher awaits a call. */
  datatype Await = AtSave | AtPublish | AtClaim | AtCall | AtReport | AtConsume

  /** What others do: a step of the protocol, a new row that asks for no dispatch, or the mark of such a row. */
  datatype Deed = Deed(step: Label, at: int) | Produce(command: Command<Payload>, at: int) | MarkOther(n: nat, at: int)

  /** Which calls throw, what n8n answers, when, and what everyone else does before each call. */
  datatype World = World(
    incidentWrite: bool,
    healthWrite: bool,
    publish: bool,
    provider: Provider,
    consume: bool,
    claimAt: int,
    reportAt: int,
    consumeAt: int,
    others: Await -> seq<Deed>)

  // ── Runs ─────────────────────────────────────────────────────────────────

  predicate ByWorker(l: Label, w: nat) {
    match l
    case List(v, _) => v == w
    case TryClaim(v, _, _, _) => v == w
    case CallProvider(v, _) => v == w
    case ReportBack(v, _, _, _) => v == w
    case Consume(v) => v == w
    case Crash(v) => v == w
    case _ => false
  }

  /** The worker's own steps, in order. */
  function OwnOf(labels: seq<Label>, w: nat): seq<Label> {
    if labels == [] then []
    else
      var n := |labels| - 1;
      OwnOf(labels[..n], w) + (if ByWorker(labels[n], w) then [labels[n]] else [])
  }

  lemma {:induction false} OwnAppend(a: seq<Label>, b: seq<Label>, w: nat)
    ensures OwnOf(a + b, w) == OwnOf(a, w) + OwnOf(b, w)
    decreases |b|
  {
    if b == [] {
      assert a + b == a;
    } else {
      var n := |b| - 1;
      assert (a + b)[..|a + b| - 1] == a + b[..n];
      OwnAppend(a, b[..n], w);
    }
  }

  /** A worker is where it can make this step, and the repository accepts it. */
  predicate Enabled(s: Sys, l: Label) {
    match l
    case List(w, i) => PcOf(s, w).Idle? && i in s.items
    case TryClaim(w, owner, duration, _) =>
      PcOf(s, w).Listed? && PcOf(s, w).id in s.items && owner != "" && duration > 0
    case CallProvider(w, _) => PcOf(s, w).Calling? && PcOf(s, w).id in s.items
    case ReportBack(w, owner, code, now) =>
      && PcOf(s, w).Called? && PcOf(s, w).id in s.items
      && EA.ReportDispatch(s.items[PcOf(s, w).id].cell, owner, ReportOf(PcOf(s, w).result, code), now).Ok?
    case Consume(w) => PcOf(s, w).Consuming? && PcOf(s, w).id in s.items
    case _ => true
  }

  /** The worker makes no step in vain: it calls the provider only where its claim was granted. */
  ghost predicate OwnEnabled(start: Sys, labels: seq<Label>, w: nat) {
    forall k | 0 <= k < |labels| && ByWorker(labels[k], w) :: Enabled(Steps.Run(start, labels[..k], Do), labels[k])
  }

  lemma EnabledJoin(s: Sys, a: seq<Label>, s1: Sys, b: seq<Label>, w: nat)
    requires Steps.Run(s, a, Do) == s1 && OwnEnabled(s, a, w) && OwnEnabled(s1, b, w)
    ensures OwnEnabled(s, a + b, w)
  {
    forall k | 0 <= k < |a + b| && ByWorker((a + b)[k], w)
      ensures Enabled(Steps.Run(s, (a + b)[..k], Do), (a + b)[k])
    {
      if k < |a| {
        assert (a + b)[..k] == a[..k] && (a + b)[k] == a[k];
      } else {
        assert (a + b)[..k] == a + b[..k - |a|] && (a + b)[k] == b[k - |a|];
        Steps.Append(s, a, b[..k - |a|], Do);
      }
    }
  }

  /** The protocol's state and both stores. */
  datatype Snap = Snap(s: Sys, cells: Repo.Cells, log: PLog)

  /** All steps, this worker's among them, the rows that others and this worker marked, and how many rows came. */
  datatype Past = Past(labels: seq<Label>, own: seq<Label>, theirs: set<nat>, mine: set<nat>, added: nat)

  const Nothing := Past([], [], {}, {}, 0)

  function Followed(p: Past, q: Past): Past {
    Past(p.labels + q.labels, p.own + q.own, p.theirs + q.theirs, p.mine + q.mine, p.added + q.added)
  }

  ghost predicate Went(w: nat, from: Snap, past: Past, to: Snap) {
    match past
    case Past(labels, own, theirs, mine, added) =>
      && Steps.Run(from.s, labels, Do) == to.s && own == OwnOf(labels, w) && OwnEnabled(from.s, labels, w)
      && StoreAdvances(from.cells, to.cells) && LogMoves(from.log, to.log, theirs + mine)
      && |to.log| == |from.log| + added
  }

  /** Both stores are in a state of the protocol, reached this way, with the worker at this point of its work. */
  ghost predicate Stands(w: nat, from: Snap, past: Past, now: Snap, pc: Pc) {
    match now
    case Snap(s, cells, log) => Holds(s, cells, log) && PcOf(s, w) == pc && Went(w, from, past, Snap(s, cells, log))
  }

  lemma WentNowhere(w: nat, x: Snap)
    ensures Went(w, x, Nothing, x)
  {
  }

  lemma WentOn(w: nat, x: Snap, p: Past, y: Snap, q: Past, z: Snap)
    requires Went(w, x, p, y) && Went(w, y, q, z)
    ensures Went(w, x, Followed(p, q), z)
  {
    Steps.Append(x.s, p.labels, q.labels, Do);
    OwnAppend(p.labels, q.labels, w);
    EnabledJoin(x.s, p.labels, y.s, q.labels, w);
    AdvancesTransitive(x.cells, y.cells, z.cells);
    MovesTransitive(x.log, y.log, z.log, p.theirs + p.mine, q.theirs + q.mine);
    assert p.theirs + p.mine + (q.theirs + q.mine) == p.theirs + q.theirs + (p.mine + q.mine);
  }

  /** One step. */
  ghost predicate Stepped(w: nat, x: Snap, l: Label, y: Snap, ids: set<nat>) {
    && y.s == Do(x.s, l) && (ByWorker(l, w) ==> Enabled(x.s, l))
    && StoreAdvances(x.cells, y.cells) && LogMoves(x.log, y.log, ids)
  }

  function One(l: Label, w: nat, theirs: set<nat>, mine: set<nat>, added: nat): Past {
    Past([l], if ByWorker(l, w) then [l] else [], theirs, mine, added)
  }

  lemma SteppedIsWent(w: nat, x: Snap, l: Label, y: Snap, theirs: set<nat>, mine: set<nat>)
    requires Stepped(w, x, l, y, theirs + mine)
    ensures Went(w, x, One(l, w, theirs, mine, |y.log| - |x.log|), y)
  {
    Steps.Single(x.s, l, Do);
    assert [l][..0] == [];
  }

  lemma QuietlyWent(w: nat, x: Snap, y: Snap, theirs: set<nat>, mine: set<nat>)
    requires y.s == x.s && StoreAdvances(x.cells, y.cells) && LogMoves(x.log, y.log, theirs + mine)
    ensures Went(w, x, Past([], [], theirs, mine, |y.log| - |x.log|), y)
  {
  }

  /**
   * Whatever a publisher and everyone else did since a good state, the protocol
   * kept its promise in the repositories: a consumed dispatch row's action is
   * settled.
   */
  lemma WentKeepsPromise(w: nat, from: Snap, past: Past, to: Snap, id: nat)
    requires Inv(from.s) && Went(w, from, past, to) && Holds(to.s, to.cells, to.log)
    ensures Inv(to.s)
    ensures id in to.cells && RowConsumed(to.log, to.cells[id]) ==> EA.IsSettled(to.cells[id].action.state)
  {
    RunKeepsInv(from.s, past.labels);
    if id in to.cells && RowConsumed(to.log, to.cells[id]) {
      ConsumedRowsAreSettled(to.s, to.cells, to.log, id);
    }
  }

  function Then(p: Past, l: Label): Past {
    p.(labels := p.labels + [l], own := p.own + [l])
  }

  function Marking(p: Past, n: nat): Past {
    p.(mine := p.mine + {n})
  }

  /** A step of the worker's own that marks no row. */
  lemma WentMyStep(w: nat, from: Snap, past: Past, x: Snap, l: Label, y: Snap)
    requires Went(w, from, past, x) && ByWorker(l, w) && Stepped(w, x, l, y, {}) && |y.log| == |x.log|
    ensures Went(w, from, Then(past, l), y)
  {
    var none: set<nat> := {};
    assert none + none == none;
    SteppedIsWent(w, x, l, y, {}, {});
    WentOn(w, from, past, x, One(l, w, {}, {}, 0), y);
    assert Followed(past, One(l, w, {}, {}, 0)) == Then(past, l);
  }

  /** A step of the worker's own that touches neither store. */
  lemma WentLocally(w: nat, from: Snap, past: Past, x: Snap, l: Label)
    requires Went(w, from, past, x) && ByWorker(l, w) && Enabled(x.s, l)
    ensures Went(w, from, Then(past, l), x.(s := Do(x.s, l)))
  {
    WentMyStep(w, from, past, x, l, x.(s := Do(x.s, l)));
  }

  /** The mark of the row of a settled action. */
  lemma WentMyMark(w: nat, from: Snap, past: Past, x: Snap, l: Label, y: Snap, n: nat)
    requires Went(w, from, past, x) && ByWorker(l, w) && Stepped(w, x, l, y, {n}) && |y.log| == |x.log|
    ensures Went(w, from, Marking(Then(past, l), n), y)
  {
    assert {} + {n} == {n};
    SteppedIsWent(w, x, l, y, {}, {n});
    WentOn(w, from, past, x, One(l, w, {}, {n}, 0), y);
    assert Followed(past, One(l, w, {}, {n}, 0)) == Marking(Then(past, l), n);
  }

  /** The mark of a row that asks for nothing. */
  lemma WentOtherMark(w: nat, from: Snap, past: Past, x: Snap, y: Snap, n: nat)
    requires Went(w, from, past, x) && y.s == x.s && y.cells == x.cells
    requires LogMoves(x.log, y.log, {n}) && |y.log| == |x.log|
    ensures Went(w, from, Marking(past, n), y)
  {
    assert {} + {n} == {n};
    QuietlyWent(w, x, y, {}, {n});
    WentOn(w, from, past, x, Past([], [], {}, {n}, 0), y);
    assert Followed(past, Past([], [], {}, {n}, 0)) == Marking(past, n);
  }

  /** The worker did just this, marking just these rows; in silence nothing else happened. */
  ghost predicate Adds(p: Past, own: seq<Label>, mine: set<nat>, quiet: bool, q: Past) {
    match q
    case Past(labels', own', theirs', mine', added') =>
      && own' == p.own + own && mine' == p.mine + mine && p.labels <= labels'
      && (quiet ==> labels' == p.labels + own && theirs' == p.theirs && added' == p.added)
  }

  lemma AddsMore(p: Past, own: seq<Label>, mine: set<nat>, quiet: bool, q: Past, more: seq<Label>, rows: set<nat>,
                 r: Past)
    requires Adds(p, own, mine, quiet, q) && Adds(q, more, rows, quiet, r)
    ensures Adds(p, own + more, mine + rows, quiet, r)
  {
    assert p.own + own + more == p.own + (own + more);
    assert p.labels + own + more == p.labels + (own + more);
  }

  /** First the one, then more; which rows were marked is said only once. */
  lemma AddsThen(p: Past, own: seq<Label>, quiet: bool, q: Past, more: seq<Label>, rows: set<nat>, r: Past)
    requires Adds(p, own, {}, quiet, q) && Adds(q, more, rows, quiet, r)
    ensures Adds(p, own + more, rows, quiet, r)
  {
    AddsMore(p, own, {}, quiet, q, more, rows, r);
    assert {} + rows == rows;
  }

  /** After waiting. */
  lemma AddsWaited(p: Past, quiet: bool, q: Past, own: seq<Label>, rows: set<nat>, r: Past)
    requires Adds(p, [], {}, quiet, q) && Adds(q, own, rows, quiet, r)
    ensures Adds(p, own, rows, quiet, r)
  {
    AddsThen(p, [], quiet, q, own, rows, r);
    assert [] + own == own;
  }

  lemma AddsNothing(p: Past, quiet: bool)
    ensures Adds(p, [], {}, quiet, p)
  {
    assert p.own + [] == p.own && p.mine + {} == p.mine && p.labels + [] == p.labels;
  }

  lemma AddsStep(p: Past, l: Label, quiet: bool)
    ensures Adds(p, [l], {}, quiet, Then(p, l))
  {
    assert p.mine + {} == p.mine;
  }

  lemma AddsMark(p: Past, l: Label, n: nat, quiet: bool)
    ensures Adds(p, [l], {n}, quiet, Marking(Then(p, l), n)) && Adds(p, [], {n}, quiet, Marking(p, n))
  {
    assert p.own + [] == p.own;
  }

  // ── What the worker itself does for one row ──────────────────────────────

  function ResultOf(c: Config, p: Provider): ProviderResult {
    match p
    case Accepts => Success
    case Retryable(_) => DispatchProtocol.Retryable(c.retryBackoffMs)
    case Refuses(_) => Permanent
    case Throws => Threw
  }

  function CodeOf(p: Provider): string {
    match p
    case Retryable(code) => code
    case Refuses(code) => code
    case _ => ""
  }

  /**
   * How far a row got: no claim was taken; the claim was deferred; it found the
   * action settled; the provider call threw; its report was refused; a retry
   * was scheduled; the answer was final.
   */
  datatype Way = Untouched | Deferring | Settling | Throwing | Unreported | Retrying | Reporting

  function Head(i: nat, w: nat, c: Config, world: World): seq<Label> {
    [List(w, i)] + [TryClaim(w, c.workerId, c.leaseMs, world.claimAt)]
  }

  function Call(w: nat, c: Config, world: World): Label {
    CallProvider(w, ResultOf(c, world.provider))
  }

  function Report(w: nat, c: Config, world: World): Label {
    ReportBack(w, c.workerId, CodeOf(world.provider), world.reportAt)
  }

  /** After a claim: the call, if it was granted, and the report. */
  function Rest(way: Way, w: nat, c: Config, world: World): seq<Label> {
    match way
    case Throwing => [Call(w, c, world)]
    case Unreported => [Call(w, c, world)] + [Crash(w)]
    case Retrying => [Call(w, c, world)] + [Report(w, c, world)]
    case Reporting => [Call(w, c, world)] + [Report(w, c, world)]
    case _ => []
  }

  /** The worker's steps up to the mark. */
  function Body(way: Way, i: nat, w: nat, c: Config, world: World): seq<Label> {
    if way.Untouched? then [] else Head(i, w, c, world) + Rest(way, w, c, world)
  }

  /** After the call: what the report says. */
  function WayOf(ok: bool, p: Provider): Way {
    if !ok then Unreported else if p.Retryable? then Retrying else Reporting
  }

  lemma AddsReport(p: Past, quiet: bool, q: Past, ok: bool, w: nat, c: Config, world: World, r: Past)
    requires !world.provider.Throws? && Adds(p, [Call(w, c, world)], {}, quiet, q)
    requires Adds(q, [if ok then Report(w, c, world) else Crash(w)], {}, quiet, r)
    ensures Adds(p, Rest(WayOf(ok, world.provider), w, c, world), {}, quiet, r)
    ensures Suits(WayOf(ok, world.provider), world.provider)
  {
    AddsThen(p, [Call(w, c, world)], quiet, q, [if ok then Report(w, c, world) else Crash(w)], {}, r);
  }

  /** What became of the dispatch. */
  function FateOf(way: Way): Fate {
    match way
    case Deferring => WasDeferred
    case Retrying => WasDeferred
    case Settling => WasConsumed
    case Reporting => WasConsumed
    case _ => ThrewUp
  }

  /** The way agrees with what n8n answered. */
  predicate Suits(way: Way, p: Provider) {
    match way
    case Throwing => p.Throws?
    case Unreported => !p.Throws?
    case Retrying => p.Retryable?
    case Reporting => p.Accepts? || p.Refuses?
    case _ => true
  }

  /** All of the worker's steps for a row: the mark of a settled action's row comes last, or throws. */
  function Script(way: Way, i: nat, w: nat, c: Config, world: World): seq<Label> {
    Body(way, i, w, c, world) + Last(way, w, world)
  }

  function Ending(done: bool, w: nat): Label {
    if done then Consume(w) else Crash(w)
  }

  function Last(way: Way, w: nat, world: World): seq<Label> {
    if FateOf(way).WasConsumed? then [Ending(world.consume, w)] else []
  }

  /** What became of the row. */
  function FinalFate(way: Way, world: World): Fate {
    if FateOf(way).WasConsumed? && !world.consume then ThrewUp else FateOf(way)
  }

  /** The rows a fate leaves marked. */
  function Marks(n: nat, fate: Fate): set<nat> {
    if fate.WasConsumed? then {n} else {}
  }

  function MarkIf(done: bool, n: nat): set<nat> {
    if done then {n} else {}
  }

  lemma AddsEnding(p: Past, done: bool, w: nat, n: nat, quiet: bool, q: Past)
    requires q == if done then Marking(Then(p, Consume(w)), n) else Then(p, Crash(w))
    ensures Adds(p, [Ending(done, w)], MarkIf(done, n), quiet, q)
  {
    AddsMark(p, Consume(w), n, quiet);
    AddsStep(p, Crash(w), quiet);
  }

  /** The body of a settled dispatch and its ending make the script. */
  lemma AddsScript(p: Past, way: Way, i: nat, w: nat, c: Config, world: World, n: nat, quiet: bool, q: Past, r: Past)
    requires FateOf(way).WasConsumed? && Adds(p, Body(way, i, w, c, world), {}, quiet, q)
    requires Adds(q, [Ending(world.consume, w)], MarkIf(world.consume, n), quiet, r)
    ensures Adds(p, Script(way, i, w, c, world), Marks(n, FinalFate(way, world)), quiet, r)
  {
    AddsThen(p, Body(way, i, w, c, world), quiet, q, [Ending(world.consume, w)], MarkIf(world.consume, n), r);
  }

  lemma BodyIsScript(p: Past, way: Way, i: nat, w: nat, c: Config, world: World, n: nat, quiet: bool, q: Past)
    requires !FateOf(way).WasConsumed? && Adds(p, Body(way, i, w, c, world), {}, quiet, q)
    ensures Adds(p, Script(way, i, w, c, world), Marks(n, FinalFate(way, world)), quiet, q)
  {
    assert Script(way, i, w, c, world) == Body(way, i, w, c, world);
  }

  /** Marking the row of a settled action brings the worker to the end of its turn. */
  lemma MarkArrives(w: nat, from: Snap, past: Past, x: Snap, i: nat, n: nat, at: int, y: Snap)
    requires Stands(w, from, past, x, Consuming(i)) && i in x.cells
    requires 1 <= n <= |x.log| && Asks(x.log[n - 1].payload, x.cells[i])
    requires y.s == ConsumeStep(x.s, w) && y.cells == x.cells && y.log == Consumed(x.log, n, at)
    ensures Stands(w, from, Marking(Then(past, Consume(w)), n), y, Idle)
  {
    ConsumingMoves(x.log, n, at);
    WentMyMark(w, from, past, x, Consume(w), y, n);
    ConsumeHolds(x.s, x.cells, x.log, w, n, at);
  }

  /** So does marking a row that asks for nothing. */
  lemma OtherMarkArrives(w: nat, from: Snap, past: Past, x: Snap, n: nat, at: int, y: Snap)
    requires Stands(w, from, past, x, Idle) && 1 <= n <= |x.log| && !IsRequest(x.log[n - 1].payload)
    requires y.s == x.s && y.cells == x.cells && y.log == Consumed(x.log, n, at)
    ensures Stands(w, from, Marking(past, n), y, Idle)
  {
    ConsumingMoves(x.log, n, at);
    WentOtherMark(w, from, past, x, y, n);
    ForeignRowHolds(x.s, x.cells, x.log, n, at);
  }

  /** A step that calls neither store. */
  lemma StandsLocally(w: nat, from: Snap, past: Past, x: Snap, pc: Pc, l: Label, next: Pc)
    requires Stands(w, from, past, x, pc) && ByWorker(l, w)
    requires l.Crash? || (l.CallProvider? && pc.Calling? && pc.id in x.cells)
    requires next == if l.Crash? || l.result.Threw? then Idle else Called(pc.id, pc.attempt, l.result)
    ensures Stands(w, from, Then(past, l), x.(s := Do(x.s, l)), next)
  {
    WentLocally(w, from, past, x, l);
    if l.Crash? {
      MovingHolds(x.s, x.cells, x.log, w, Idle);
    } else {
      CallHolds(x.s, x.cells, x.log, w, l.result);
      CallGoesOn(x.s, x.cells, x.log, w, pc.id, pc.attempt, l.result);
    }
  }

  /** The provider is called on four of the ways, once, straight after the claim among the worker's own steps. */
  lemma CallFollowsClaim(way: Way, i: nat, w: nat, c: Config, world: World, k: nat)
    requires k < |Script(way, i, w, c, world)|
    ensures var own := Script(way, i, w, c, world);
            && (own[k].CallProvider? <==> k == 2 && way in {Throwing, Unreported, Retrying, Reporting})
            && (own[k].CallProvider? ==> own[1].TryClaim?)
  {
    assert Head(i, w, c, world) == [List(w, i), TryClaim(w, c.workerId, c.leaseMs, world.claimAt)];
  }
}
