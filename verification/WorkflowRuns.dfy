/**
 * Workflow runs (`InMemoryWorkflowRunRepository`,
 * packages/db/src/workflow-run-repository.ts) and the outbox keys of tenant
 * provisioning (packages/core/src/workflows.ts).
 */
module WorkflowRuns {
  import opened Text
  import opened KeyIndex
  import opened Outbox

  datatype State = Requested | InProgress | Completed | Failed

  datatype WorkflowRun = WorkflowRun(
    tenantId: string,
    workflowId: string,
    dedupeKey: string,
    state: State,
    failureCode: Option<string>)

  /** Runs by joined key, as the source keeps them. */
  type Runs = map<string, WorkflowRun>

  predicate IsTerminal(s: State) {
    s.Completed? || s.Failed?
  }

  // ── Transitions ──────────────────────────────────────────────────────────

  predicate ValidRun(tenantId: string, workflowId: string, dedupeKey: string) {
    IsUuid(tenantId) && workflowId != "" && dedupeKey != ""
  }

  function Upserted(runs: Runs, tenantId: string, workflowId: string, dedupeKey: string): Runs {
    var k := Key(tenantId, workflowId);
    if k in runs || !ValidRun(tenantId, workflowId, dedupeKey) then runs
    else runs[k := WorkflowRun(tenantId, workflowId, dedupeKey, Requested, None)]
  }

  predicate Accepts(runs: Runs, k: string, from: State) {
    k in runs && runs[k].state == from && !IsTerminal(from)
  }

  /** Compare and swap: refused unless the run is in `from` and not terminal. */
  function Swapped(runs: Runs, k: string, from: State, to: State, code: Option<string>): Runs {
    if !Accepts(runs, k, from) then runs
    else runs[k := runs[k].(state := to, failureCode := if code.Some? then code else runs[k].failureCode)]
  }

  datatype Op =
    | Upsert(tenantId: string, workflowId: string, dedupeKey: string)
    | Swap(tenantId: string, workflowId: string, from: State, to: State, code: Option<string>)

  function Apply(runs: Runs, op: Op): Runs {
    match op
    case Upsert(t, w, d) => Upserted(runs, t, w, d)
    case Swap(t, w, from, to, code) => Swapped(runs, Key(t, w), from, to, code)
  }

  function RunOps(runs: Runs, ops: seq<Op>): Runs
    decreases |ops|
  {
    if ops == [] then runs else RunOps(Apply(runs, ops[0]), ops[1..])
  }

  /** A terminal run never changes again, whatever calls follow: it has one terminal state for ever. */
  lemma {:induction false} TerminalIsFinal(runs: Runs, ops: seq<Op>, k: string)
    requires k in runs && IsTerminal(runs[k].state)
    ensures k in RunOps(runs, ops) && RunOps(runs, ops)[k] == runs[k]
    decreases |ops|
  {
    if ops != [] {
      TerminalIsFinal(Apply(runs, ops[0]), ops[1..], k);
    }
  }

  /** Of two swaps out of the same state with no other call in between, at most one is accepted. */
  lemma OneSwapWins(runs: Runs, k: string, from: State, to: State, to': State, code: Option<string>)
    requires Accepts(runs, k, from) && to != from
    ensures !Accepts(Swapped(runs, k, from, to, code), k, from)
    ensures Swapped(Swapped(runs, k, from, to, code), k, from, to', None) == Swapped(runs, k, from, to, code)
  {
  }

  class InMemoryWorkflowRunRepository {
    var runs: Runs

    /** Every run is filed under its own joined key. */
    ghost predicate Valid()
      reads this
    {
      forall k {:trigger k in runs} | k in runs ::
        && k == Key(runs[k].tenantId, runs[k].workflowId)
        && ValidRun(runs[k].tenantId, runs[k].workflowId, runs[k].dedupeKey)
    }

    constructor ()
      ensures Valid() && runs == map[]
    {
      runs := map[];
    }

    /** None is the validation error of a new run. A valid tenant gets its own run. */
    method UpsertRequested(tenantId: string, workflowId: string, dedupeKey: string) returns (r: Option<WorkflowRun>)
      requires Valid()
      modifies this
      ensures Valid() && runs == Apply(old(runs), Upsert(tenantId, workflowId, dedupeKey))
      ensures r.None? <==> Key(tenantId, workflowId) !in old(runs) && !ValidRun(tenantId, workflowId, dedupeKey)
      ensures r.Some? ==> Key(tenantId, workflowId) in runs && r.value == runs[Key(tenantId, workflowId)]
      ensures r.Some? && IsUuid(tenantId) ==> r.value.tenantId == tenantId && r.value.workflowId == workflowId
    {
      var k := Key(tenantId, workflowId);
      if k in runs {
        if IsUuid(tenantId) {
          KeyInjective(tenantId, workflowId, runs[k].tenantId, runs[k].workflowId);
        }
        return Some(runs[k]);
      }
      if !ValidRun(tenantId, workflowId, dedupeKey) {
        return None;
      }
      var run := WorkflowRun(tenantId, workflowId, dedupeKey, Requested, None);
      runs := runs[k := run];
      return Some(run);
    }

    method TransitionState(tenantId: string, workflowId: string, from: State, to: State, code: Option<string>)
      returns (r: Option<WorkflowRun>)
      requires Valid()
      modifies this
      ensures Valid() && runs == Apply(old(runs), Swap(tenantId, workflowId, from, to, code))
      ensures r.Some? <==> Accepts(old(runs), Key(tenantId, workflowId), from)
      ensures r.Some? ==> r.value == runs[Key(tenantId, workflowId)] && r.value.state == to
    {
      var k := Key(tenantId, workflowId);
      if k !in runs || runs[k].state != from || runs[k].state == Completed || runs[k].state == Failed {
        return None;
      }
      var updated := runs[k].(state := to, failureCode := if code.Some? then code else runs[k].failureCode);
      runs := runs[k := updated];
      return Some(updated);
    }

    method GetByWorkflowId(tenantId: string, workflowId: string) returns (r: Option<WorkflowRun>)
      requires Valid()
      ensures r.Some? <==> Key(tenantId, workflowId) in runs
      ensures r.Some? && IsUuid(tenantId) ==> r.value.tenantId == tenantId && r.value.workflowId == workflowId
      ensures IsUuid(tenantId) && r.None? ==>
                forall k {:trigger k in runs} | k in runs ::
                  runs[k].tenantId != tenantId || runs[k].workflowId != workflowId
    {
      var k := Key(tenantId, workflowId);
      if k in runs {
        if IsUuid(tenantId) {
          KeyInjective(tenantId, workflowId, runs[k].tenantId, runs[k].workflowId);
        }
        return Some(runs[k]);
      }
      return None;
    }
  }

  // ── Outbox commands of tenant provisioning ───────────────────────────────

  datatype Request = Request(tenantId: string, workflowId: string, dedupeKey: string)

  predicate ValidRequest(r: Request) {
    ValidRun(r.tenantId, r.workflowId, r.dedupeKey)
  }

  function RunKey(r: Request): string {
    Key(r.tenantId, r.workflowId)
  }

  /** The worker runs the steps itself or asks the durable executor. */
  datatype Path = Direct | Restate

  datatype Kind = ProgressEvent | CompletedEvent | FailedEvent

  /** What a row says; times, messages and run ids are left aside. */
  datatype Body =
    | Terminal(request: Request, path: Path, kind: Kind)
    | Progress(request: Request)
    | OtherBody

  function TypeName(k: Kind): string {
    match k
    case ProgressEvent => "workflow.tenant_provisioning.progress.v1"
    case CompletedEvent => "workflow.tenant_provisioning.completed.v1"
    case FailedEvent => "workflow.tenant_provisioning.failed.v1"
  }

  function Word(k: Kind): string {
    match k
    case ProgressEvent => "progress"
    case CompletedEvent => "completed"
    case FailedEvent => "failed"
  }

  function PathName(p: Path): string {
    match p
    case Direct => "orchestrator"
    case Restate => "worker-callback"
  }

  function CallbackEnd(p: Path, k: Kind): string {
    if p.Direct? then [':'] + Word(k) else ""
  }

  function CallbackId(r: Request, p: Path, k: Kind): string {
    PathName(p) + [':'] + (r.workflowId + CallbackEnd(p, k))
  }

  /** `<dedupeKey>:<completed or failed>:<callbackId>` */
  function TerminalKey(r: Request, p: Path, k: Kind): string {
    r.dedupeKey + [':'] + (Word(k) + [':'] + CallbackId(r, p, k))
  }

  function TerminalId(r: Request, p: Path, k: Kind): Identity {
    Identity(r.tenantId, TypeName(k), TerminalKey(r, p, k))
  }

  function ProgressId(r: Request, callbackId: string, step: string): Identity {
    Identity(r.tenantId, TypeName(ProgressEvent),
             r.dedupeKey + [':'] + (Word(ProgressEvent) + [':'] + (callbackId + [':'] + step)))
  }

  /** The outbox takes every event about a valid request. */
  lemma EventsAreAccepted(r: Request, p: Path, k: Kind, callbackId: string, step: string)
    requires ValidRequest(r)
    ensures ValidIdentity(TerminalId(r, p, k)) && ValidIdentity(ProgressId(r, callbackId, step))
  {
    TypeNameIsValid(k);
    TypeNameIsValid(ProgressEvent);
  }

  lemma TypeNameIsValid(k: Kind)
    ensures IsEventType(TypeName(k))
  {
    var name, dot := TypeName(k), |TypeName(k)| - 3;
    assert name[dot + 2..] == ['1'];
    assert IsEventTypeSplit(name, dot);
  }

  lemma TypeNamesDiffer(j: Kind, k: Kind)
    requires TypeName(j) == TypeName(k)
    ensures j == k
  {
    assert |TypeName(ProgressEvent)| == 40 && |TypeName(CompletedEvent)| == 41 && |TypeName(FailedEvent)| == 38;
  }

  lemma SuffixIsInjective(a: string, b: string, end: string)
    requires a + end == b + end
    ensures a == b
  {
    assert |a| == |b|;
    assert a == (a + end)[..|a|] && b == (b + end)[..|a|];
  }

  lemma PathNamesDiffer(p: Path, o: Path)
    ensures ':' !in PathName(p) && (PathName(p) == PathName(o) ==> p == o)
  {
    assert PathName(p) == PathName(o) ==> PathName(p)[0] == PathName(o)[0];
  }

  lemma CallbackNamesWorkflow(r: Request, p: Path, q: Request, o: Path, k: Kind)
    requires CallbackId(r, p, k) == CallbackId(q, o, k)
    ensures p == o && r.workflowId == q.workflowId
  {
    PathNamesDiffer(p, o);
    PathNamesDiffer(o, p);
    JoinInjective(':', PathName(p), r.workflowId + CallbackEnd(p, k), PathName(o), q.workflowId + CallbackEnd(o, k));
    SuffixIsInjective(r.workflowId, q.workflowId, CallbackEnd(p, k));
  }

  /** When dedupe keys hold no colon, the key of a terminal event names its workflow and path. */
  lemma ColonFreeKeysIdentify(r: Request, p: Path, q: Request, o: Path, k: Kind)
    requires ':' !in r.dedupeKey && ':' !in q.dedupeKey && TerminalKey(r, p, k) == TerminalKey(q, o, k)
    ensures r.dedupeKey == q.dedupeKey && r.workflowId == q.workflowId && p == o
  {
    JoinInjective(':', r.dedupeKey, Word(k) + [':'] + CallbackId(r, p, k), q.dedupeKey,
                  Word(k) + [':'] + CallbackId(q, o, k));
    JoinInjective(':', Word(k), CallbackId(r, p, k), Word(k), CallbackId(q, o, k));
    CallbackNamesWorkflow(r, p, q, o, k);
  }

  // ── When another request has the same key ────────────────────────────────

  /** What stands between the dedupe key and the workflow id. */
  function Marker(p: Path, k: Kind): (m: string)
    ensures |m| > 0
  {
    [':'] + Word(k) + [':'] + PathName(p) + [':']
  }

  lemma KeyShape(r: Request, p: Path, k: Kind)
    ensures TerminalKey(r, p, k) == r.dedupeKey + Marker(p, k) + r.workflowId + CallbackEnd(p, k)
  {
    Flatten(r.dedupeKey, Word(k), PathName(p), r.workflowId, CallbackEnd(p, k));
  }

  lemma Flatten(d: string, word: string, name: string, w: string, end: string)
    ensures d + [':'] + (word + [':'] + (name + [':'] + (w + end)))
            == d + ([':'] + word + [':'] + name + [':']) + w + end
  {
    assert [':'] + (word + [':'] + (name + [':'] + (w + end))) == [':'] + word + [':'] + name + [':'] + (w + end);
  }

  /** The text can be read as a key of this path whose dedupe key has length i, neither part being empty. */
  predicate ReadsAs(text: string, i: nat, p: Path, k: Kind) {
    var m, e := Marker(p, k), CallbackEnd(p, k);
    0 < i && i + |m| + |e| < |text| && text[i..i + |m|] == m && text[|text| - |e|..] == e
  }

  /** The request one gets by reading the text that way. */
  function ReadRequest(tenantId: string, text: string, i: nat, p: Path, k: Kind): Request
    requires ReadsAs(text, i, p, k)
  {
    Request(tenantId, text[i + |Marker(p, k)|..|text| - |CallbackEnd(p, k)|], text[..i])
  }

  lemma ReadBack(tenantId: string, text: string, i: nat, p: Path, k: Kind)
    requires ReadsAs(text, i, p, k)
    ensures TerminalKey(ReadRequest(tenantId, text, i, p, k), p, k) == text
  {
    var m, e := Marker(p, k), CallbackEnd(p, k);
    KeyShape(ReadRequest(tenantId, text, i, p, k), p, k);
    ReassembleWith(text, i, m, e);
  }

  lemma ReassembleWith(text: string, i: nat, m: string, e: string)
    requires i + |m| + |e| <= |text| && text[i..i + |m|] == m && text[|text| - |e|..] == e
    ensures text[..i] + m + text[i + |m|..|text| - |e|] + e == text
  {
    Reassemble(text, i, i + |m|, |text| - |e|);
  }

  lemma Reassemble(text: string, i: nat, j: nat, l: nat)
    requires i <= j <= l <= |text|
    ensures text[..i] + text[i..j] + text[j..l] + text[l..] == text
  {
  }

  lemma OwnReading(r: Request, p: Path, k: Kind)
    requires ValidRequest(r)
    ensures ReadsAs(TerminalKey(r, p, k), |r.dedupeKey|, p, k)
  {
    KeyShape(r, p, k);
    Slices(r.dedupeKey, Marker(p, k), r.workflowId, CallbackEnd(p, k));
  }

  lemma Slices(d: string, m: string, w: string, e: string)
    ensures var text := d + m + w + e;
            |text| == |d| + |m| + |w| + |e| && text[|d|..|d| + |m|] == m && text[|text| - |e|..] == e
  {
    var text := d + m + w + e;
    assert text[|text| - |e|..] == e;
    assert text == d + (m + (w + e));
    assert text[|d|..] == m + (w + e);
    assert text[|d|..|d| + |m|] == text[|d|..][..|m|] == m;
  }

  /** Requests with dedupe keys of one length share a key only if they are the same. */
  lemma SameCutSameRequest(r: Request, p: Path, q: Request, o: Path, k: Kind)
    requires |r.dedupeKey| == |q.dedupeKey| && TerminalKey(r, p, k) == TerminalKey(q, o, k)
    ensures r.dedupeKey == q.dedupeKey && r.workflowId == q.workflowId && p == o
  {
    var x, y := Word(k) + [':'] + CallbackId(r, p, k), Word(k) + [':'] + CallbackId(q, o, k);
    assert r.dedupeKey == (r.dedupeKey + [':'] + x)[..|r.dedupeKey|];
    assert q.dedupeKey == (q.dedupeKey + [':'] + y)[..|q.dedupeKey|];
    assert x == (r.dedupeKey + [':'] + x)[|r.dedupeKey| + 1..] == (q.dedupeKey + [':'] + y)[|q.dedupeKey| + 1..] == y;
    assert CallbackId(r, p, k) == x[|Word(k)| + 1..] == y[|Word(k)| + 1..] == CallbackId(q, o, k);
    CallbackNamesWorkflow(r, p, q, o, k);
  }

  /** Another valid request of the tenant has this key. */
  ghost predicate IsShared(r: Request, p: Path, k: Kind) {
    exists q, o :: ValidRequest(q) && q.tenantId == r.tenantId && q != r && TerminalKey(q, o, k) == TerminalKey(r, p, k)
  }

  /**
   * Exactly when the key of a terminal event does not name its request: when
   * the key's text can also be cut elsewhere, at an occurrence of
   * `:<word>:orchestrator:` or `:<word>:worker-callback:` that does not follow
   * the dedupe key and leaves neither part empty.
   */
  lemma KeyIsSharedIff(r: Request, p: Path, k: Kind)
    requires ValidRequest(r)
    ensures IsShared(r, p, k) <==> exists i, o :: i != |r.dedupeKey| && ReadsAs(TerminalKey(r, p, k), i, o, k)
  {
    var text := TerminalKey(r, p, k);
    if IsShared(r, p, k) {
      var q, o :| ValidRequest(q) && q.tenantId == r.tenantId && q != r && TerminalKey(q, o, k) == text;
      if |q.dedupeKey| == |r.dedupeKey| {
        SameCutSameRequest(r, p, q, o, k);
      }
      OwnReading(q, o, k);
    }
    if i, o :| i != |r.dedupeKey| && ReadsAs(text, i, o, k) {
      var q := ReadRequest(r.tenantId, text, i, o, k);
      ReadBack(r.tenantId, text, i, o, k);
      assert |q.dedupeKey| == i;
    }
  }

  /** Such keys exist for any two dedupe keys and workflow ids. */
  lemma KeysCollide(tenantId: string, d: string, v: string, w: string)
    ensures TerminalKey(Request(tenantId, v + Marker(Direct, CompletedEvent) + w, d), Direct, CompletedEvent)
         == TerminalKey(Request(tenantId, w, d + Marker(Direct, CompletedEvent) + v), Direct, CompletedEvent)
    ensures v + Marker(Direct, CompletedEvent) + w != w
  {
    var m := Marker(Direct, CompletedEvent);
    KeyShape(Request(tenantId, v + m + w, d), Direct, CompletedEvent);
    KeyShape(Request(tenantId, w, d + m + v), Direct, CompletedEvent);
    Shift(d, m, v, w, CallbackEnd(Direct, CompletedEvent));
    assert |v + m + w| > |w|;
  }

  lemma Shift(d: string, m: string, v: string, w: string, end: string)
    ensures d + m + (v + m + w) + end == (d + m + v) + m + w + end
  {
  }
}
