/** Running a function until its requirements settle (required_resources.go). */
module Requirements {
  import opened Results

  datatype Match = MatchName(name: string) | MatchLabels(labels: map<string, string>) | MatchAll
  datatype ResourceSelector = ResourceSelector(apiVersion: string, kind: string, namespace: string, match_: Match)
  datatype SchemaSelector = SchemaSelector(apiVersion: string, kind: string)

  datatype Resource = Resource(namespace: string, name: string, body: string)

  /** None stands for a resource that was looked up by name and not found. */
  type Found = Option<seq<Resource>>
  type Schema = string
  type Context = string

  datatype Requirements = Requirements(
    extra: map<string, ResourceSelector>,  // the deprecated field
    resources: map<string, ResourceSelector>,
    schemas: map<string, SchemaSelector>)

  datatype Severity = Unspecified | Fatal | Warning | Normal

  datatype Response = Response(
    results: seq<Severity>,
    requirements: Option<Requirements>,
    context: Context,
    body: string)

  datatype RequestView = RequestView(
    resources: map<string, Found>,
    extra: map<string, Found>,
    schemas: map<string, Schema>,
    context: Context,
    input: string)

  datatype Field = ExtraResources | Resources

  /** What the function and the fetchers answer.  The first argument is the iteration: each
      call happens at most once per iteration, so nothing is assumed to be deterministic. */
  datatype Env = Env(
    run: (nat, RequestView) -> Result<Response, string>,
    fetch: (nat, Field, string, ResourceSelector) -> Result<Found, string>,
    schema: (nat, string, SchemaSelector) -> Result<Schema, string>)

  const MAX_ITERATIONS: nat := 5
  const FIRST_ITERATION: nat := 0

  // ----- Resolving requirements -----

  ghost predicate AllFound(env: Env, i: nat, f: Field, sel: map<string, ResourceSelector>) {
    forall n :: n in sel ==> env.fetch(i, f, n, sel[n]).Ok?
  }

  ghost function FoundFor(env: Env, i: nat, f: Field, sel: map<string, ResourceSelector>): map<string, Found>
    requires AllFound(env, i, f, sel)
  {
    map n | n in sel :: env.fetch(i, f, n, sel[n]).value
  }

  ghost predicate AllSchemas(env: Env, i: nat, sel: map<string, SchemaSelector>) {
    forall n :: n in sel ==> env.schema(i, n, sel[n]).Ok?
  }

  ghost function SchemasFor(env: Env, i: nat, sel: map<string, SchemaSelector>): map<string, Schema>
    requires AllSchemas(env, i, sel)
  {
    map n | n in sel :: env.schema(i, n, sel[n]).value
  }

  /** What the function was given up front. */
  datatype Bootstrap = Bootstrap(resources: map<string, Found>, schemas: map<string, Schema>)

  datatype Required = Required(resources: map<string, Found>, extra: map<string, Found>, schemas: map<string, Schema>)

  function Wanted(reqs: Option<Requirements>): Requirements {
    match reqs
    case None => Requirements(map[], map[], map[])
    case Some(r) => r
  }

  ghost predicate Resolves(env: Env, i: nat, reqs: Option<Requirements>) {
    var w := Wanted(reqs);
    && AllFound(env, i, ExtraResources, w.extra) && AllFound(env, i, Resources, w.resources)
    && AllSchemas(env, i, w.schemas)
  }

  /** The bootstrap data, overridden by name with what was fetched. */
  ghost function Resolved(env: Env, i: nat, boot: Bootstrap, reqs: Option<Requirements>): Required
    requires Resolves(env, i, reqs)
  {
    var w := Wanted(reqs);
    Required(
      boot.resources + FoundFor(env, i, Resources, w.resources),
      FoundFor(env, i, ExtraResources, w.extra),
      boot.schemas + SchemasFor(env, i, w.schemas))
  }

  /** Entry by entry: have is boot, with every name of sel bound to what was fetched for it. */
  ghost predicate HasFetched(env: Env, i: nat, f: Field, boot: map<string, Found>,
                             sel: map<string, ResourceSelector>, have: map<string, Found>) {
    && have.Keys == boot.Keys + sel.Keys
    && (forall n :: n in sel ==> env.fetch(i, f, n, sel[n]) == Ok(have[n]))
    && (forall n :: n in boot && n !in sel ==> have[n] == boot[n])
  }

  ghost predicate HasSchemas(env: Env, i: nat, boot: map<string, Schema>,
                             sel: map<string, SchemaSelector>, have: map<string, Schema>) {
    && have.Keys == boot.Keys + sel.Keys
    && (forall n :: n in sel ==> env.schema(i, n, sel[n]) == Ok(have[n]))
    && (forall n :: n in boot && n !in sel ==> have[n] == boot[n])
  }

  /** have holds the fetched value of all that reqs asks for, every bootstrap resource and
      schema of another name, and nothing else. */
  ghost predicate Holds(env: Env, i: nat, boot: Bootstrap, reqs: Option<Requirements>, have: Required) {
    match reqs
    case None => have == Required(boot.resources, map[], boot.schemas)
    case Some(w) =>
      && HasFetched(env, i, Resources, boot.resources, w.resources, have.resources)
      && HasFetched(env, i, ExtraResources, map[], w.extra, have.extra)
      && HasSchemas(env, i, boot.schemas, w.schemas, have.schemas)
  }

  lemma ResolvedHolds(env: Env, i: nat, boot: Bootstrap, reqs: Option<Requirements>)
    requires Resolves(env, i, reqs)
    ensures Holds(env, i, boot, reqs, Resolved(env, i, boot, reqs))
  {
    if reqs == None {
      assert boot.resources + map[] == boot.resources && boot.schemas + map[] == boot.schemas;
    }
  }

  predicate Carries(req: RequestView, next: Required) {
    req.resources == next.resources && req.extra == next.extra && req.schemas == next.schemas
  }

  function Rebuilt(req: RequestView, next: Required, context: Context): RequestView {
    req.(resources := next.resources, extra := next.extra, schemas := next.schemas, context := context)
  }

  // ----- The loop -----

  datatype Outcome =
    | Returned(rsp: Response)
    | RunFailed(error: string)
    | FetchFailed(iteration: nat, wanted: Requirements)
    | Unstable

  datatype Call = Call(request: RequestView, answer: Result<Response, string>)

  /** One run of the loop: how it ends, the calls it makes, and the request it leaves behind. */
  datatype Run = Run(outcome: Outcome, calls: seq<Call>, request: RequestView)

  datatype Step = Stop(outcome: Outcome) | Continue(requirements: Option<Requirements>, request: RequestView)

  /** Iteration i; shortcut says whether the first iteration may stop early. */
  ghost function StepOf(env: Env, shortcut: bool, boot: Bootstrap, i: nat, prev: Option<Requirements>,
                        req: RequestView): Step {
    match env.run(i, req)
    case Err(e) => Stop(RunFailed(e))
    case Ok(rsp) =>
      if Fatal in rsp.results || rsp.requirements == prev then Stop(Returned(rsp))
      else if !Resolves(env, i, rsp.requirements) then Stop(FetchFailed(i, Wanted(rsp.requirements)))
      else
        var next := Resolved(env, i, boot, rsp.requirements);
        if shortcut && i == 0 && Carries(req, next) then Stop(Returned(rsp))
        else Continue(rsp.requirements, Rebuilt(req, next, rsp.context))
  }

  /** The loop from iteration i on. */
  ghost function Loop(env: Env, shortcut: bool, boot: Bootstrap, i: nat, prev: Option<Requirements>,
                      req: RequestView): (r: Run)
    requires i <= MAX_ITERATIONS + 1
    decreases MAX_ITERATIONS + 1 - i
  {
    if i > MAX_ITERATIONS then Run(Unstable, [], req)
    else
      var call := [Call(req, env.run(i, req))];
      match StepOf(env, shortcut, boot, i, prev, req)
      case Stop(o) => Run(o, call, req)
      case Continue(reqs, again) =>
        var rest := Loop(env, shortcut, boot, i + 1, reqs, again);
        Run(rest.outcome, call + rest.calls, rest.request)
  }

  function BootstrapOf(req: RequestView): Bootstrap {
    Bootstrap(req.resources, req.schemas)
  }

  /** RunFunction as it is. */
  ghost function RunOf(env: Env, req: RequestView): Run {
    Loop(env, true, BootstrapOf(req), FIRST_ITERATION, None, req)
  }

  /** RunFunction without the early return of its first iteration. */
  ghost function PlainRunOf(env: Env, req: RequestView): Run {
    Loop(env, false, BootstrapOf(req), FIRST_ITERATION, None, req)
  }

  // ----- The code -----

  class Request {
    var resources: map<string, Found>
    var extra: map<string, Found>
    var schemas: map<string, Schema>
    var context: Context
    const input: string

    constructor (v: RequestView)
      ensures View() == v
    {
      resources, extra, schemas, context, input := v.resources, v.extra, v.schemas, v.context, v.input;
    }

    function View(): RequestView
      reads this
    {
      RequestView(resources, extra, schemas, context, input)
    }
  }

  datatype Failure = CallFailed(error: string) | CannotFetch(name: string, error: string) | NotStable

  /** The result says how the run ended; a fetch error names one entry that failed. */
  ghost predicate Reports(env: Env, o: Outcome, r: Result<Response, Failure>) {
    match o
    case Returned(rsp) => r == Ok(rsp)
    case RunFailed(e) => r == Err(CallFailed(e))
    case FetchFailed(i, w) => r.Err? && r.error.CannotFetch? && FailsFor(env, i, w, r.error.name, r.error.error)
    case Unstable => r == Err(NotStable)
  }

  ghost predicate FailsFor(env: Env, i: nat, w: Requirements, n: string, e: string) {
    || (n in w.extra && env.fetch(i, ExtraResources, n, w.extra[n]) == Err(e))
    || (n in w.resources && env.fetch(i, Resources, n, w.resources[n]) == Err(e))
    || (n in w.schemas && env.schema(i, n, w.schemas[n]) == Err(e))
  }

  /** The two loops that fetch resources, each over a map in any order. */
  method FetchResources(env: Env, i: nat, f: Field, sel: map<string, ResourceSelector>)
    returns (r: Result<map<string, Found>, (string, string)>)
    ensures r.Ok? <==> AllFound(env, i, f, sel)
    ensures r.Ok? ==> r.value == FoundFor(env, i, f, sel)
    ensures r.Err? ==> r.error.0 in sel && env.fetch(i, f, r.error.0, sel[r.error.0]) == Err(r.error.1)
  {
    var todo, found := sel.Keys, map[];
    while todo != {}
      invariant todo <= sel.Keys && found.Keys == sel.Keys - todo
      invariant forall n :: n in found ==> env.fetch(i, f, n, sel[n]) == Ok(found[n])
      decreases todo
    {
      var n :| n in todo;
      var v := env.fetch(i, f, n, sel[n]);
      if v.Err? {
        return Err((n, v.error));
      }
      found := found[n := v.value];
      todo := todo - {n};
    }
    return Ok(found);
  }

  /** The loop that fetches schemas. */
  method FetchSchemas(env: Env, i: nat, sel: map<string, SchemaSelector>)
    returns (r: Result<map<string, Schema>, (string, string)>)
    ensures r.Ok? <==> AllSchemas(env, i, sel)
    ensures r.Ok? ==> r.value == SchemasFor(env, i, sel)
    ensures r.Err? ==> r.error.0 in sel && env.schema(i, r.error.0, sel[r.error.0]) == Err(r.error.1)
  {
    var todo, found := sel.Keys, map[];
    while todo != {}
      invariant todo <= sel.Keys && found.Keys == sel.Keys - todo
      invariant forall n :: n in found ==> env.schema(i, n, sel[n]) == Ok(found[n])
      decreases todo
    {
      var n :| n in todo;
      var v := env.schema(i, n, sel[n]);
      if v.Err? {
        return Err((n, v.error));
      }
      found := found[n := v.value];
      todo := todo - {n};
    }
    return Ok(found);
  }

  /** Resolves what a response requires, starting from the bootstrap data. */
  method Resolve(env: Env, i: nat, boot: Bootstrap, reqs: Option<Requirements>)
    returns (r: Result<Required, (string, string)>)
    ensures r.Ok? <==> Resolves(env, i, reqs)
    ensures r.Ok? ==> r.value == Resolved(env, i, boot, reqs) && Holds(env, i, boot, reqs, r.value)
    ensures r.Err? ==> FailsFor(env, i, Wanted(reqs), r.error.0, r.error.1)
  {
    var w := Wanted(reqs);
    var extra := FetchResources(env, i, ExtraResources, w.extra);
    if extra.Err? { return Err(extra.error); }
    var resources := FetchResources(env, i, Resources, w.resources);
    if resources.Err? { return Err(resources.error); }
    var schemas := FetchSchemas(env, i, w.schemas);
    if schemas.Err? { return Err(schemas.error); }
    ResolvedHolds(env, i, boot, reqs);
    return Ok(Required(boot.resources + resources.value, extra.value, boot.schemas + schemas.value));
  }

  method HasFatal(results: seq<Severity>) returns (fatal: bool)
    ensures fatal <==> Fatal in results
  {
    for k := 0 to |results|
      invariant Fatal !in results[..k]
    {
      if results[k] == Fatal {
        return true;
      }
    }
    return false;
  }

  /** Runs the function until its requirements settle, writing what they resolve to into
      the request before each further call. */
  method RunFunction(env: Env, req: Request) returns (r: Result<Response, Failure>)
    modifies req
    ensures EndsAs(env, RunOf(env, old(req.View())), r, req.View())
  {
    var boot := BootstrapOf(req.View());
    var requirements: Option<Requirements> := None;
    ghost var run := RunOf(env, req.View());
    for i := FIRST_ITERATION to MAX_ITERATIONS + 1
      invariant SameEnd(run, Loop(env, true, boot, i, requirements, req.View()))
    {
      ghost var rest := Loop(env, true, boot, i, requirements, req.View());
      var done, reqs := Iterate(env, boot, i, requirements, req);
      if done.Some? {
        EndsAlike(env, run, rest, done.value, req.View());
        return done.value;
      }
      requirements := reqs;
    }
    NeverStable(env, run, boot, requirements, req.View());
    return Err(NotStable);
  }

  lemma EndsAlike(env: Env, a: Run, b: Run, r: Result<Response, Failure>, req: RequestView)
    requires SameEnd(a, b) && EndsAs(env, b, r, req)
    ensures EndsAs(env, a, r, req)
  {
  }

  lemma NeverStable(env: Env, run: Run, boot: Bootstrap, reqs: Option<Requirements>, req: RequestView)
    requires SameEnd(run, Loop(env, true, boot, MAX_ITERATIONS + 1, reqs, req))
    ensures EndsAs(env, run, Err(NotStable), req)
  {
  }

  /** The run ended with this result, leaving the request like this. */
  ghost predicate EndsAs(env: Env, run: Run, r: Result<Response, Failure>, req: RequestView) {
    Reports(env, run.outcome, r) && run.request == req
  }

  ghost predicate SameEnd(a: Run, b: Run) {
    a.outcome == b.outcome && a.request == b.request
  }

  /** One iteration of RunFunction: either it ends the run, or the run goes on with the
      requirements and the request it leaves. */
  method Iterate(env: Env, boot: Bootstrap, i: nat, requirements: Option<Requirements>, req: Request)
    returns (done: Option<Result<Response, Failure>>, reqs: Option<Requirements>)
    requires i <= MAX_ITERATIONS
    modifies req
    ensures done.Some? ==> EndsAs(env, Loop(env, true, boot, i, requirements, old(req.View())), done.value, req.View())
    ensures done.None? ==> SameEnd(Loop(env, true, boot, i, requirements, old(req.View())),
                                   Loop(env, true, boot, i + 1, reqs, req.View()))
  {
    reqs := requirements;
    var answer := env.run(i, req.View());
    if answer.Err? {
      return Some(Err(CallFailed(answer.error))), reqs;
    }
    var rsp := answer.value;
    var fatal := HasFatal(rsp.results);
    if fatal || rsp.requirements == requirements {
      return Some(Ok(rsp)), reqs;
    }
    var next := Resolve(env, i, boot, rsp.requirements);
    if next.Err? {
      return Some(Err(CannotFetch(next.error.0, next.error.1))), reqs;
    }
    if i == 0 && Carries(req.View(), next.value) {
      return Some(Ok(rsp)), reqs;
    }
    ghost var after := Rebuilt(req.View(), next.value, rsp.context);
    req.resources := next.value.resources;
    req.extra := next.value.extra;
    req.schemas := next.value.schemas;
    req.context := rsp.context;
    assert req.View() == after;
    return None, rsp.requirements;
  }

  // ----- What every run guarantees -----

  /** The request holds what was fetched at iteration j for reqs: its resources and schemas are
      those and the bootstrap data under other names; extra resources may come with others. */
  ghost predicate HoldsAll(env: Env, j: nat, boot: Bootstrap, reqs: Option<Requirements>, req: RequestView) {
    exists extra :: Holds(env, j, boot, reqs, Required(req.resources, extra, req.schemas)) && Within(extra, req.extra)
  }

  ghost predicate Within(a: map<string, Found>, b: map<string, Found>) {
    forall n :: n in a ==> n in b && b[n] == a[n]
  }

  /** The iteration whose fetches the k-th call's request was built from: the one before it.
      The first request is the caller's own; if it is final it matches the first fetches. */
  function BuiltAt(k: nat): nat {
    if k == 0 then 0 else k - 1
  }

  /** The k-th call of RunFunction gave the response rsp, to a request that held everything
      rsp requires unless rsp is fatal. */
  ghost predicate AnsweredBy(env: Env, boot: Bootstrap, k: nat, call: Call, rsp: Response) {
    && call.answer == Ok(rsp)
    && (Fatal !in rsp.results ==> HoldsAll(env, BuiltAt(k), boot, rsp.requirements, call.request))
  }

  function LastCall(run: Run): Call
    requires run.calls != []
  {
    run.calls[|run.calls| - 1]
  }

  lemma HoldsIsHoldsAll(env: Env, j: nat, boot: Bootstrap, reqs: Option<Requirements>, req: RequestView)
    requires Holds(env, j, boot, reqs, Required(req.resources, req.extra, req.schemas))
    ensures HoldsAll(env, j, boot, reqs, req)
  {
    assert Within(req.extra, req.extra);
  }

  lemma StepHoldsAll(env: Env, shortcut: bool, boot: Bootstrap, i: nat, prev: Option<Requirements>, req: RequestView)
    requires if i == 0 then prev == None && boot == BootstrapOf(req) else HoldsAll(env, i - 1, boot, prev, req)
    ensures match StepOf(env, shortcut, boot, i, prev, req)
      case Continue(reqs, again) => HoldsAll(env, i, boot, reqs, again)
      case Stop(Returned(rsp)) => AnsweredBy(env, boot, i, Call(req, env.run(i, req)), rsp)
      case _ => true
  {
    if i == 0 {
      NothingRequired(env, req);
    }
    if env.run(i, req).Ok? && Resolves(env, i, env.run(i, req).value.requirements) {
      var rsp := env.run(i, req).value;
      var next := Resolved(env, i, boot, rsp.requirements);
      ResolvedHolds(env, i, boot, rsp.requirements);
      HoldsIsHoldsAll(env, i, boot, rsp.requirements, Rebuilt(req, next, rsp.context));
      if Carries(req, next) {
        HoldsIsHoldsAll(env, i, boot, rsp.requirements, req);
      }
    }
  }

  /** A run that returns a response from iteration i on ends with the call that answered it. */
  ghost predicate EndsAnswered(env: Env, boot: Bootstrap, i: nat, run: Run) {
    run.outcome.Returned? ==>
      run.calls != [] && AnsweredBy(env, boot, i + |run.calls| - 1, LastCall(run), run.outcome.rsp)
  }

  lemma OneCallBefore(env: Env, boot: Bootstrap, i: nat, call: Call, rest: Run)
    requires EndsAnswered(env, boot, i + 1, rest)
    ensures EndsAnswered(env, boot, i, Run(rest.outcome, [call] + rest.calls, rest.request))
  {
    if rest.outcome.Returned? {
      assert LastCall(Run(rest.outcome, [call] + rest.calls, rest.request)) == LastCall(rest);
    }
  }

  lemma LastCallAnswers(env: Env, boot: Bootstrap, i: nat, call: Call, o: Outcome, req: RequestView)
    requires o.Returned? ==> AnsweredBy(env, boot, i, call, o.rsp)
    ensures EndsAnswered(env, boot, i, Run(o, [call], req))
  {
  }

  lemma {:induction false} LoopAnswersFully(env: Env, shortcut: bool, boot: Bootstrap, i: nat,
                                            prev: Option<Requirements>, req: RequestView)
    requires i <= MAX_ITERATIONS + 1
    requires if i == 0 then prev == None && boot == BootstrapOf(req) else HoldsAll(env, i - 1, boot, prev, req)
    ensures EndsAnswered(env, boot, i, Loop(env, shortcut, boot, i, prev, req))
    decreases MAX_ITERATIONS + 1 - i
  {
    if i <= MAX_ITERATIONS {
      StepHoldsAll(env, shortcut, boot, i, prev, req);
      var call := Call(req, env.run(i, req));
      match StepOf(env, shortcut, boot, i, prev, req)
      case Stop(o) => LastCallAnswers(env, boot, i, call, o, req);
      case Continue(reqs, again) =>
        LoopAnswersFully(env, shortcut, boot, i + 1, reqs, again);
        OneCallBefore(env, boot, i, call, Loop(env, shortcut, boot, i + 1, reqs, again));
    }
  }

  lemma NothingRequired(env: Env, req: RequestView)
    ensures HoldsAll(env, 0, BootstrapOf(req), None, req)
  {
    assert Within(map[], req.extra);
    assert Holds(env, 0, BootstrapOf(req), None, Required(req.resources, map[], req.schemas));
  }

  /** Every response RunFunction returns, unless fatal, answered a request that held the
      fetched value of all it requires and every bootstrap entry not overridden by name. */
  lemma ReturnedIsAnswered(env: Env, req: RequestView)
    ensures EndsAnswered(env, Bootstrap(req.resources, req.schemas), 0, RunOf(env, req))
  {
    LoopAnswersFully(env, true, BootstrapOf(req), FIRST_ITERATION, None, req);
  }

  /** The k-th call's request is made of the bootstrap data and the latest response alone:
      no older requirements and no older fetches. */
  ghost predicate BuiltFromLatest(env: Env, boot: Bootstrap, k: nat, before: Call, call: Call) {
    && before.answer.Ok?
    && var req, rsp := call.request, before.answer.value;
    && Holds(env, k, boot, rsp.requirements, Required(req.resources, req.extra, req.schemas))
    && req.context == rsp.context && req.input == before.request.input
  }

  /** A run that goes on makes its first call and then those of the run from there. */
  lemma FirstThenRest(env: Env, shortcut: bool, boot: Bootstrap, i: nat, prev: Option<Requirements>, req: RequestView)
    returns (step: Step, rest: seq<Call>)
    requires i <= MAX_ITERATIONS + 1
    requires |Loop(env, shortcut, boot, i, prev, req).calls| > 1
    ensures i <= MAX_ITERATIONS && step == StepOf(env, shortcut, boot, i, prev, req) && step.Continue?
    ensures rest == Loop(env, shortcut, boot, i + 1, step.requirements, step.request).calls
    ensures Loop(env, shortcut, boot, i, prev, req).calls == [Call(req, env.run(i, req))] + rest
    ensures BuiltFromLatest(env, boot, i, Call(req, env.run(i, req)), Call(step.request, env.run(i + 1, step.request)))
  {
    step := StepOf(env, shortcut, boot, i, prev, req);
    rest := Loop(env, shortcut, boot, i + 1, step.requirements, step.request).calls;
    ResolvedHolds(env, i, boot, env.run(i, req).value.requirements);
  }

  lemma FirstIsOwn(env: Env, shortcut: bool, boot: Bootstrap, i: nat, prev: Option<Requirements>, req: RequestView)
    requires i <= MAX_ITERATIONS + 1
    requires Loop(env, shortcut, boot, i, prev, req).calls != []
    ensures Loop(env, shortcut, boot, i, prev, req).calls[0] == Call(req, env.run(i, req))
  {
  }

  /** The k-th of the calls from iteration i on is answered by the function at its own
      iteration; the first request is req, any later one is built from the call before. */
  ghost predicate WellBuilt(env: Env, boot: Bootstrap, i: nat, req: RequestView, calls: seq<Call>, k: nat)
    requires k < |calls|
  {
    && calls[k].answer == env.run(i + k, calls[k].request)
    && if k == 0 then calls[0].request == req else BuiltFromLatest(env, boot, i + k - 1, calls[k - 1], calls[k])
  }

  lemma {:induction false} CallsAreBuilt(env: Env, shortcut: bool, boot: Bootstrap, i: nat,
                                         prev: Option<Requirements>, req: RequestView, k: nat)
    requires i <= MAX_ITERATIONS + 1
    requires k < |Loop(env, shortcut, boot, i, prev, req).calls|
    ensures WellBuilt(env, boot, i, req, Loop(env, shortcut, boot, i, prev, req).calls, k)
    decreases k
  {
    if k == 0 {
      FirstIsOwn(env, shortcut, boot, i, prev, req);
    } else {
      var step, rest := FirstThenRest(env, shortcut, boot, i, prev, req);
      CallsAreBuilt(env, shortcut, boot, i + 1, step.requirements, step.request, k - 1);
      ShiftedCalls(env, boot, i, Call(req, env.run(i, req)), step.request, rest, k);
    }
  }

  lemma ShiftedCalls(env: Env, boot: Bootstrap, i: nat, first: Call, second: RequestView, rest: seq<Call>, k: nat)
    requires 0 < k <= |rest| && WellBuilt(env, boot, i + 1, second, rest, k - 1)
    requires BuiltFromLatest(env, boot, i, first, Call(second, env.run(i + 1, second)))
    ensures WellBuilt(env, boot, i, first.request, [first] + rest, k)
  {
    var calls := [first] + rest;
    assert calls[k] == rest[k - 1];
    assert calls[k - 1] == if k == 1 then first else rest[k - 2];
  }

  lemma {:induction false} CallsAreFew(env: Env, shortcut: bool, boot: Bootstrap, i: nat,
                                       prev: Option<Requirements>, req: RequestView)
    requires i <= MAX_ITERATIONS + 1
    ensures var run := Loop(env, shortcut, boot, i, prev, req);
      |run.calls| <= MAX_ITERATIONS + 1 - i && (run.outcome == Unstable ==> |run.calls| == MAX_ITERATIONS + 1 - i)
    decreases MAX_ITERATIONS + 1 - i
  {
    if i <= MAX_ITERATIONS {
      var step := StepOf(env, shortcut, boot, i, prev, req);
      if step.Continue? {
        CallsAreFew(env, shortcut, boot, i + 1, step.requirements, step.request);
      }
    }
  }

  /** The function is called at most six times, and a run that gives up made all six calls. */
  lemma AtMostSixCalls(env: Env, req: RequestView)
    ensures |RunOf(env, req).calls| <= 6
    ensures RunOf(env, req).outcome == Unstable ==> |RunOf(env, req).calls| == 6
  {
    CallsAreFew(env, true, BootstrapOf(req), FIRST_ITERATION, None, req);
  }

  /** The first call gets the caller's request; every later one a request built from the
      bootstrap data and the response to the call before it. */
  lemma LaterCallsDependOnLatest(env: Env, req: RequestView, k: nat)
    requires k < |RunOf(env, req).calls|
    ensures WellBuilt(env, Bootstrap(req.resources, req.schemas), FIRST_ITERATION, req, RunOf(env, req).calls, k)
  {
    CallsAreBuilt(env, true, BootstrapOf(req), FIRST_ITERATION, None, req, k);
  }

  // ----- When a run ends -----

  /** The response ends the run at iteration i: it is fatal, it requires what the response before
      it did, or it is the first and the request already held exactly what it requires. */
  ghost predicate IsFinal(env: Env, boot: Bootstrap, i: nat, prev: Option<Requirements>, req: RequestView,
                          rsp: Response)
  {
    || (exists k :: 0 <= k < |rsp.results| && rsp.results[k] == Fatal)
    || rsp.requirements == prev
    || (i == 0 && Holds(env, 0, boot, rsp.requirements, Required(req.resources, req.extra, req.schemas)))
  }

  /** The calls of a run from iteration i on, and how it ends, said without following the loop. */
  ghost predicate EndsRightly(env: Env, boot: Bootstrap, i: nat, prev: Option<Requirements>,
                              calls: seq<Call>, o: Outcome)
    decreases |calls|
  {
    if calls == [] then i == 6 && o == Unstable
    else
      var call := calls[0];
      match call.answer
      case Err(e) => |calls| == 1 && o == RunFailed(e)
      case Ok(rsp) =>
        if IsFinal(env, boot, i, prev, call.request, rsp) then |calls| == 1 && o == Returned(rsp)
        else if !Resolves(env, i, rsp.requirements) then
          |calls| == 1 && rsp.requirements.Some? && o == FetchFailed(i, rsp.requirements.value)
        else EndsRightly(env, boot, i + 1, rsp.requirements, calls[1..], o)
  }

  lemma HoldsOnlyIfResolves(env: Env, i: nat, boot: Bootstrap, reqs: Option<Requirements>, have: Required)
    requires Holds(env, i, boot, reqs, have)
    ensures Resolves(env, i, reqs) && have == Resolved(env, i, boot, reqs)
  {
    ResolvedHolds(env, i, boot, reqs);
    var next := Resolved(env, i, boot, reqs);
    if reqs.Some? {
      HasFetchedOnce(env, i, Resources, boot.resources, reqs.value.resources, have.resources, next.resources);
      HasFetchedOnce(env, i, ExtraResources, map[], reqs.value.extra, have.extra, next.extra);
      assert have.schemas == next.schemas;
    }
  }

  lemma HasFetchedOnce(env: Env, i: nat, f: Field, boot: map<string, Found>, sel: map<string, ResourceSelector>,
                       a: map<string, Found>, b: map<string, Found>)
    requires HasFetched(env, i, f, boot, sel, a) && HasFetched(env, i, f, boot, sel, b)
    ensures a == b
  {
    forall n | n in a ensures a[n] == b[n] {
      if n in sel {
        assert env.fetch(i, f, n, sel[n]) == Ok(a[n]);
      }
    }
  }

  lemma StepEndsRightly(env: Env, boot: Bootstrap, i: nat, prev: Option<Requirements>, req: RequestView, rsp: Response)
    requires env.run(i, req) == Ok(rsp)
    ensures match StepOf(env, true, boot, i, prev, req)
      case Stop(o) =>
        if IsFinal(env, boot, i, prev, req, rsp) then o == Returned(rsp)
        else
          !Resolves(env, i, rsp.requirements) && rsp.requirements.Some? && o == FetchFailed(i, rsp.requirements.value)
      case Continue(reqs, _) =>
        !IsFinal(env, boot, i, prev, req, rsp) && Resolves(env, i, rsp.requirements) && reqs == rsp.requirements
  {
    var have := Required(req.resources, req.extra, req.schemas);
    if Holds(env, i, boot, rsp.requirements, have) {
      HoldsOnlyIfResolves(env, i, boot, rsp.requirements, have);
    }
    if Resolves(env, i, rsp.requirements) {
      ResolvedHolds(env, i, boot, rsp.requirements);
      assert Carries(req, Resolved(env, i, boot, rsp.requirements)) ==>
        Holds(env, i, boot, rsp.requirements, have);
    }
  }

  lemma {:induction false} LoopEndsRightly(env: Env, boot: Bootstrap, i: nat, prev: Option<Requirements>,
                                          req: RequestView)
    requires i <= MAX_ITERATIONS + 1
    ensures var run := Loop(env, true, boot, i, prev, req);
      EndsRightly(env, boot, i, prev, run.calls, run.outcome)
    decreases MAX_ITERATIONS + 1 - i
  {
    if i <= MAX_ITERATIONS && env.run(i, req).Ok? {
      var rsp := env.run(i, req).value;
      StepEndsRightly(env, boot, i, prev, req, rsp);
      var step := StepOf(env, true, boot, i, prev, req);
      if step.Continue? {
        LoopEndsRightly(env, boot, i + 1, step.requirements, step.request);
        var rest := Loop(env, true, boot, i + 1, step.requirements, step.request);
        assert ([Call(req, env.run(i, req))] + rest.calls)[1..] == rest.calls;
      }
    }
  }

  /** A run ends with the first response that is final, the first call or fetch that fails, or
      after six calls; every response before that was not final and could be resolved. */
  lemma RunEndsRightly(env: Env, req: RequestView)
    ensures var run := RunOf(env, req);
      EndsRightly(env, Bootstrap(req.resources, req.schemas), FIRST_ITERATION, None, run.calls, run.outcome)
  {
    LoopEndsRightly(env, BootstrapOf(req), FIRST_ITERATION, None, req);
  }

  /** Unless it gives up, a run leaves the request as the last call got it. */
  lemma {:induction false} LoopLeavesRequest(env: Env, boot: Bootstrap, i: nat, prev: Option<Requirements>,
                                            req: RequestView)
    requires i <= MAX_ITERATIONS + 1
    ensures var run := Loop(env, true, boot, i, prev, req);
      run.outcome != Unstable ==> run.calls != [] && run.request == LastCall(run).request
    decreases MAX_ITERATIONS + 1 - i
  {
    if i <= MAX_ITERATIONS {
      var step := StepOf(env, true, boot, i, prev, req);
      if step.Continue? {
        LoopLeavesRequest(env, boot, i + 1, step.requirements, step.request);
      }
    }
  }

  // ----- The early return of the first iteration -----

  /** A function and fetchers that give the same answers at every iteration. */
  ghost function Fixed(
    run: RequestView -> Result<Response, string>,
    fetch: (Field, string, ResourceSelector) -> Result<Found, string>,
    schema: (string, SchemaSelector) -> Result<Schema, string>): Env
  {
    Env((i, req) => run(req), (i, f, n, s) => fetch(f, n, s), (i, n, s) => schema(n, s))
  }

  /** The first iteration stops early: it is not final for another reason, and the request
      already carries what the response requires. */
  ghost predicate StopsEarly(env: Env, req: RequestView) {
    && env.run(0, req).Ok?
    && var rsp := env.run(0, req).value;
    && Fatal !in rsp.results && rsp.requirements != None
    && Resolves(env, 0, rsp.requirements)
    && Carries(req, Resolved(env, 0, BootstrapOf(req), rsp.requirements))
  }

  /** Only an early stop can make a difference. */
  lemma {:induction false} LaterIterationsAgree(env: Env, boot: Bootstrap, i: nat, prev: Option<Requirements>,
                                                req: RequestView)
    requires 0 < i <= MAX_ITERATIONS + 1
    ensures Loop(env, true, boot, i, prev, req) == Loop(env, false, boot, i, prev, req)
    decreases MAX_ITERATIONS + 1 - i
  {
    if i <= MAX_ITERATIONS {
      var step := StepOf(env, true, boot, i, prev, req);
      assert step == StepOf(env, false, boot, i, prev, req);
      if step.Continue? {
        LaterIterationsAgree(env, boot, i + 1, step.requirements, step.request);
      }
    }
  }

  lemma WithoutEarlyStopSame(env: Env, req: RequestView)
    requires !StopsEarly(env, req)
    ensures RunOf(env, req) == PlainRunOf(env, req)
  {
    var boot := BootstrapOf(req);
    var step := StepOf(env, true, boot, FIRST_ITERATION, None, req);
    assert step == StepOf(env, false, boot, FIRST_ITERATION, None, req);
    if step.Continue? {
      LaterIterationsAgree(env, boot, 1, step.requirements, step.request);
    }
  }

  /** After an early stop the plain loop would have called the function once more, with the
      same request but for the context. */
  lemma EarlyStopSkipsOneCall(env: Env, req: RequestView)
    requires StopsEarly(env, req)
    ensures RunOf(env, req).outcome == Returned(env.run(0, req).value)
    ensures var rsp := env.run(0, req).value;
      PlainRunOf(env, req).outcome ==
      Loop(env, false, BootstrapOf(req), 1, rsp.requirements, req.(context := rsp.context)).outcome
  {
    var rsp := env.run(0, req).value;
    var next := Resolved(env, 0, BootstrapOf(req), rsp.requirements);
    assert Rebuilt(req, next, rsp.context) == req.(context := rsp.context);
  }

  /** The early return is sound for one function: it gives what the plain loop gives. */
  ghost predicate SoundFor(env: Env, req: RequestView) {
    RunOf(env, req).outcome == PlainRunOf(env, req).outcome
  }

  lemma SoundWhenContextKept(env: Env, req: RequestView)
    requires forall i: nat, r :: env.run(i, r) == env.run(0, r)
    requires StopsEarly(env, req) ==> env.run(0, req).value.context == req.context
    ensures SoundFor(env, req)
  {
    if StopsEarly(env, req) {
      EarlyStopSkipsOneCall(env, req);
      assert req.(context := req.context) == req;
      assert env.run(1, req) == env.run(0, req);
    } else {
      WithoutEarlyStopSame(env, req);
    }
  }

  /** Exactly when the early return is sound: a response on which it fires agrees with the
      plain loop, whatever function gave it, if and only if it leaves the context alone. */
  lemma EarlyReturnSoundIff(
    rsp: Response, req: RequestView,
    fetch: (Field, string, ResourceSelector) -> Result<Found, string>,
    schema: (string, SchemaSelector) -> Result<Schema, string>)
    requires StopsEarly(Fixed(r => Ok(rsp), fetch, schema), req)
    ensures rsp.context == req.context <==>
      forall run: RequestView -> Result<Response, string> :: run(req) == Ok(rsp) ==>
        SoundFor(Fixed(run, fetch, schema), req)
  {
    forall run: RequestView -> Result<Response, string> | run(req) == Ok(rsp) && rsp.context == req.context
      ensures SoundFor(Fixed(run, fetch, schema), req)
    {
      SoundWhenContextKept(Fixed(run, fetch, schema), req);
    }
    if rsp.context != req.context {
      var run: RequestView -> Result<Response, string> := r => if r == req then Ok(rsp) else Err("context changed");
      UnsoundWhenContextChanged(run, rsp, req, fetch, schema);
    }
  }

  lemma UnsoundWhenContextChanged(
    run: RequestView -> Result<Response, string>, rsp: Response, req: RequestView,
    fetch: (Field, string, ResourceSelector) -> Result<Found, string>,
    schema: (string, SchemaSelector) -> Result<Schema, string>)
    requires StopsEarly(Fixed(r => Ok(rsp), fetch, schema), req)
    requires run(req) == Ok(rsp) && run(req.(context := rsp.context)).Err?
    ensures !SoundFor(Fixed(run, fetch, schema), req)
  {
    var env, any := Fixed(run, fetch, schema), Fixed(r => Ok(rsp), fetch, schema);
    assert Resolves(any, 0, rsp.requirements) == Resolves(env, 0, rsp.requirements);
    assert Resolved(any, 0, BootstrapOf(req), rsp.requirements) == Resolved(env, 0, BootstrapOf(req), rsp.requirements);
    EarlyStopSkipsOneCall(env, req);
  }
}
