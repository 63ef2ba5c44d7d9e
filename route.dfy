/**
 * Route groups and the per-request interceptor pipeline of src/route.js.
 *
 * `Router` is the module instance (it holds the error handler that
 * `setErrorHandler` replaces), `Group` is the state one `route(base)` call
 * closes over (the `beforeEach` list and the one-shot local interceptor
 * queue), and `App` records what is registered with Express. What a request
 * does is the event trace `RequestTrace`; `Respond` computes it the way the
 * per-route callback does.
 */
module Route {
  import opened Js
  import opened Run

  // ---------------------------------------------------------------------------
  // The verb table (src/route.js:162-194)

  datatype Verb =
    | All | Checkout | Connect | Copy | Delete | Get | Head | Lock | Merge
    | Mkactivity | Mkcol | Move | MSearch | Notify | Options | Patch | Post
    | Propfind | Proppatch | Purge | Put | Report | Search | Subscribe | Trace
    | Unlock | Unsubscribe

  /** The names the verbs are registered under, in table order. */
  const VerbNames: seq<string> := [
    "all", "checkout", "connect", "copy", "delete", "get", "head",
    "lock", "merge", "mkactivity", "mkcol", "move", "m-search", "notify",
    "options", "patch", "post", "propfind", "proppatch", "purge", "put",
    "report", "search", "subscribe", "trace", "unlock", "unsubscribe"
  ]

  /** The position of a verb in the table. */
  function VerbIndex(v: Verb): (i: nat)
    ensures i < |VerbNames|
  {
    match v
    case All => 0
    case Checkout => 1
    case Connect => 2
    case Copy => 3
    case Delete => 4
    case Get => 5
    case Head => 6
    case Lock => 7
    case Merge => 8
    case Mkactivity => 9
    case Mkcol => 10
    case Move => 11
    case MSearch => 12
    case Notify => 13
    case Options => 14
    case Patch => 15
    case Post => 16
    case Propfind => 17
    case Proppatch => 18
    case Purge => 19
    case Put => 20
    case Report => 21
    case Search => 22
    case Subscribe => 23
    case Trace => 24
    case Unlock => 25
    case Unsubscribe => 26
  }

  /** The verb at a position of the table. */
  function VerbAt(i: nat): Verb
    requires i < |VerbNames|
  {
    match i
    case 0 => All
    case 1 => Checkout
    case 2 => Connect
    case 3 => Copy
    case 4 => Delete
    case 5 => Get
    case 6 => Head
    case 7 => Lock
    case 8 => Merge
    case 9 => Mkactivity
    case 10 => Mkcol
    case 11 => Move
    case 12 => MSearch
    case 13 => Notify
    case 14 => Options
    case 15 => Patch
    case 16 => Post
    case 17 => Propfind
    case 18 => Proppatch
    case 19 => Purge
    case 20 => Put
    case 21 => Report
    case 22 => Search
    case 23 => Subscribe
    case 24 => Trace
    case 25 => Unlock
    case _ => Unsubscribe
  }

  /** The name a verb is registered under (`methods[name]`). */
  function VerbName(v: Verb): string {
    VerbNames[VerbIndex(v)]
  }

  /** The first position holding `name`. */
  function FindName(names: seq<string>, name: string): (r: Option<nat>)
    ensures r.Some? ==> r.value < |names| && names[r.value] == name
    ensures r.None? <==> name !in names
  {
    if names == [] then None
    else if names[0] == name then Some(0)
    else
      match FindName(names[1..], name)
      case None => None
      case Some(i) => Some(i + 1)
  }

  /** `methods[name]`: the verb registered under `name`, if any. */
  function VerbNamed(name: string): (r: Option<Verb>)
    ensures r.Some? <==> name in VerbNames
    ensures r.Some? ==> VerbName(r.value) == name
  {
    match FindName(VerbNames, name)
    case None => None
    case Some(i) => VerbIndexOfAt(i); Some(VerbAt(i))
  }

  // ---------------------------------------------------------------------------
  // Endpoints: `path.join` modelled on '/'-separated segments

  /** The length of the leading run of `p` without a '/'. */
  function SegmentLength(p: string): (n: nat)
    ensures n <= |p|
    ensures forall i :: 0 <= i < n ==> p[i] != '/'
    ensures n < |p| ==> p[n] == '/'
  {
    if p == [] || p[0] == '/' then 0 else 1 + SegmentLength(p[1..])
  }

  /** The non-empty '/'-free pieces of a path, in order. */
  function Segments(p: string): seq<string>
    decreases |p|
  {
    if p == [] then []
    else if p[0] == '/' then Segments(p[1..])
    else
      var n := SegmentLength(p);
      [p[..n]] + Segments(p[n..])
  }

  predicate IsSegment(s: string) {
    s != [] && forall i :: 0 <= i < |s| ==> s[i] != '/'
  }

  /** Each segment written after a '/'. */
  function JoinSegments(segs: seq<string>): string {
    if segs == [] then "" else "/" + segs[0] + JoinSegments(segs[1..])
  }

  /** `path.join('/', ...)` of the given segments: a '/'-rooted path. */
  function Rooted(segs: seq<string>): string {
    if segs == [] then "/" else JoinSegments(segs)
  }

  /** The endpoint a registration binds (src/route.js:117-122, 126): the base
      alone when the second argument is the handler, else the base joined with it. */
  function ResolveEndpoint(base: string, sub: Option<string>): string {
    Rooted(Segments(base) + (if sub.Some? then Segments(sub.value) else []))
  }

  // ---------------------------------------------------------------------------
  // Registration state

  /** The second argument of `method.get(...)` and its siblings: a function, or
      any other value (`undefined` when it is left out), which is joined as a path. */
  datatype EndpointArg<!S> = HandlerArg(cb: Callable<S>) | PathArg(path: Value)

  /** The argument of `method.beforeEach(...)`. */
  datatype BeforeArg<!S> = Many(list: seq<Callable<S>>) | One(interceptor: Callable<S>)

  /** A route registered with Express: the verb, the endpoint, the handler (absent
      when none was passed), the snapshot of the local queue, and the group whose
      `beforeEach` is read at request time. */
  datatype Registration<!S> = Registration(
    verb: Verb, endpoint: string, handler: Option<Callable<S>>, before: seq<Callable<S>>, group: Group<S>)

  /** What `register` binds: the handler and the endpoint. */
  function HandlerFor<S>(endpoint: EndpointArg<S>, cb: Option<Callable<S>>): Option<Callable<S>> {
    if endpoint.HandlerArg? then Some(endpoint.cb) else cb
  }

  /** The endpoint `register` resolves, or `None` when `path.join` is handed a
      base or a path that is not a string and throws. */
  function EndpointFor<S>(base: Value, endpoint: EndpointArg<S>): Option<string> {
    if !base.Str? then None
    else if endpoint.HandlerArg? then Some(ResolveEndpoint(base.s, None))
    else if endpoint.path.Str? then Some(ResolveEndpoint(base.s, Some(endpoint.path.s)))
    else None
  }

  /** What `path.join` throws for an argument that is not a string (the
      received value Node appends to the message is not modelled). */
  const PathTypeError: Value := TypeErrorValue("The \"path\" argument must be of type string")

  /** The Express application: the registrations made with `app[method]`. */
  class App<S> {
    var routes: seq<Registration<S>>

    constructor ()
      ensures routes == []
    {
      routes := [];
    }
  }

  /** The error handler the per-route callback hands rejections to. */
  datatype ErrorHandler = DefaultHandler | CustomHandler(id: nat)

  /** The instance src/route.js returns: `out` and `out.setErrorHandler`. */
  class Router<S> {
    const app: App<S>
    var handler: ErrorHandler

    constructor (app: App<S>)
      ensures this.app == app && handler == DefaultHandler
    {
      this.app := app;
      handler := DefaultHandler;
    }

    /** `out.setErrorHandler(cb)` (src/route.js:201-203). */
    method SetErrorHandler(h: ErrorHandler)
      modifies this
      ensures handler == h
    {
      handler := h;
    }

    /** `out(base, cb)` (src/route.js:198-200): a fresh group for `cb` to register in. */
    method NewGroup(base: Value) returns (g: Group<S>)
      ensures fresh(g)
      ensures g.base == base && g.app == app && g.beforeEach == [] && g.interceptors == []
    {
      g := new Group(base, app);
    }
  }

  /** The state one `route(base)` call closes over (src/route.js:111-196). */
  class Group<S> {
    const base: Value
    const app: App<S>
    var beforeEach: seq<Callable<S>>
    var interceptors: seq<Callable<S>>

    constructor (base: Value, app: App<S>)
      ensures this.base == base && this.app == app && beforeEach == [] && interceptors == []
    {
      this.base := base;
      this.app := app;
      beforeEach := [];
      interceptors := [];
    }

    /** `method(interceptor)` (src/route.js:148-150): queue for the next registration only. */
    method Intercept(interceptor: Callable<S>)
      modifies this`interceptors
      ensures interceptors == old(interceptors) + [interceptor]
    {
      interceptors := interceptors + [interceptor];
    }

    /** `method.beforeEach(before)` (src/route.js:152-158): an array is appended element
        by element, anything else pushed. */
    method BeforeEach(arg: BeforeArg<S>)
      modifies this`beforeEach
      ensures beforeEach == old(beforeEach) + (if arg.Many? then arg.list else [arg.interceptor])
    {
      if arg.Many? {
        beforeEach := beforeEach + arg.list;
      } else {
        beforeEach := beforeEach + [arg.interceptor];
      }
    }

    /** `register(method, endpoint, cb)` (src/route.js:114-146), reached through every
        verb of the table: snapshot and reset the local queue, resolve the endpoint,
        and register the per-route callback. When `path.join` throws, the queue is
        already empty and nothing is registered: the queued interceptors are lost. */
    method Register(verb: Verb, endpoint: EndpointArg<S>, cb: Option<Callable<S>>) returns (r: Completion<Value>)
      modifies this`interceptors, app
      ensures interceptors == []
      ensures EndpointFor(base, endpoint).None? ==> r == Abrupt(PathTypeError) && app.routes == old(app.routes)
      ensures EndpointFor(base, endpoint).Some? ==>
        && r == Normal(Undefined)
        && app.routes == old(app.routes)
             + [Registration(verb, EndpointFor(base, endpoint).value, HandlerFor(endpoint, cb), old(interceptors), this)]
    {
      var before := interceptors;
      interceptors := [];
      var handler := cb;
      var path: string;
      if endpoint.HandlerArg? {
        handler := Some(endpoint.cb);
        if !base.Str? {
          return Abrupt(PathTypeError);
        }
        path := ResolveEndpoint(base.s, None);
      } else {
        if !base.Str? || !endpoint.path.Str? {
          return Abrupt(PathTypeError);
        }
        path := ResolveEndpoint(base.s, Some(endpoint.path.s));
      }
      app.routes := app.routes + [Registration(verb, path, handler, before, this)];
      r := Normal(Undefined);
    }
  }

  // ---------------------------------------------------------------------------
  // One request

  /** Calling a handler or interceptor with the request's arguments; a generator
      function is wrapped with `run` first, so it runs with itself as `this`. */
  function Invoke<S>(c: Callable<S>, args: seq<Value>, fuel: nat): Completion<Value> {
    match c
    case GeneratorFn(gen) =>
      Normal(Promise(Drive(gen.body, SuspendedStart(gen.start(Itself, args)), Next(Undefined), fuel)))
    case PlainFn(f) => f(args)
  }

  /** The state of the promise `then` makes from a callback's completion. */
  function Settle(c: Completion<Value>): PromiseState {
    match c
    case Normal(v) => Adopt(v)
    case Abrupt(e) => Rejected(e)
  }

  /** How one interceptor's promise settles. */
  function Outcome<S>(c: Callable<S>, args: seq<Value>, fuel: nat): PromiseState {
    Settle(Invoke(c, args, fuel))
  }

  /** How many interceptors of a chain ran, and how the chain's promise settled. */
  datatype ChainResult = ChainResult(invoked: nat, state: PromiseState)

  /** `deferred = deferred.then(() => cb.apply(app, arguments))` for each `cb` in turn,
      starting from `p`: a callback runs only once the promise before it fulfilled. */
  function ChainFrom<S>(cbs: seq<Callable<S>>, p: PromiseState, args: seq<Value>, fuel: nat): (r: ChainResult)
    ensures r.invoked <= |cbs|
  {
    if cbs == [] || !p.Fulfilled? then ChainResult(0, p)
    else
      var rest := ChainFrom(cbs[1..], Outcome(cbs[0], args, fuel), args, fuel);
      ChainResult(1 + rest.invoked, rest.state)
  }

  /** The generator of src/route.js:138-143, closed over the chain's promise and the
      handler's result; its return value is what it passes to `res.json`. */
  datatype ResponderAt = AtStart | AwaitingChain | AwaitingContent

  function ResponderBody(chain: PromiseState, content: Value): (ResponderAt, Resume) -> Step<ResponderAt> {
    (at: ResponderAt, r: Resume) =>
      match at
      case AtStart => Yield(AwaitingChain, Promise(chain))
      case AwaitingChain =>
        if r.Throw? then Raise(r.error)
        else if content.Promise? then Yield(AwaitingContent, content)
        else Return(content)
      case AwaitingContent =>
        if r.Throw? then Raise(r.error) else Return(r.sent)
  }

  function Responder(chain: PromiseState, content: Value): GeneratorFunction<ResponderAt> {
    GeneratorFunction((_: Receiver, _: seq<Value>) => AtStart, ResponderBody(chain, content))
  }

  /** The resumptions the responder needs: it yields at most twice. */
  const ResponderFuel: nat := 2

  function Responded(chain: PromiseState, content: Value): PromiseState {
    Drive(ResponderBody(chain, content), SuspendedStart(AtStart), Next(Undefined), ResponderFuel)
  }

  /** What can be observed of a request. */
  datatype Event =
    | HandlerCalled                                    // the handler is called (src/route.js:137)
    | InterceptorCalled(index: nat)                    // index into beforeEach followed by the local snapshot
    | Escaped(error: Value)                            // the handler threw: the error leaves the Express callback
    | Json(body: Value)                                // res.json(content)
    | ErrorHandled(handler: ErrorHandler, error: Value) // the error handler gets a rejection

  function InterceptorEvents(n: nat): (evs: seq<Event>)
    ensures |evs| == n && forall i :: 0 <= i < n ==> evs[i] == InterceptorCalled(i)
  {
    if n == 0 then [] else InterceptorEvents(n - 1) + [InterceptorCalled(n - 1)]
  }

  /** What the `.catch(handler...)` pipe does with the responder's outcome. */
  function Emission(outcome: PromiseState, h: ErrorHandler): seq<Event> {
    match outcome
    case Fulfilled(v) => [Json(v)]
    case Rejected(e) => [ErrorHandled(h, e)]
    case Pending => []
  }

  /** The handler call at src/route.js:137; a registration without a handler throws there. */
  function CallHandler<S>(handler: Option<Callable<S>>, args: seq<Value>, fuel: nat): Completion<Value> {
    if handler.None? then Abrupt(TypeErrorValue("Cannot read properties of undefined (reading 'apply')"))
    else Invoke(handler.value, args, fuel)
  }

  /**
   * The events of one request, in the order they happen. The handler is called
   * while the callback runs; the interceptors only run from the promise chain
   * afterwards, so they come after it; the response waits for the whole chain.
   */
  function RequestTrace<S>(beforeEach: seq<Callable<S>>, before: seq<Callable<S>>, handler: Option<Callable<S>>,
                           onError: ErrorHandler, args: seq<Value>, fuel: nat): seq<Event>
  {
    var chain := ChainFrom(beforeEach + before, Fulfilled(Undefined), args, fuel);
    match CallHandler(handler, args, fuel)
    case Abrupt(e) => [HandlerCalled, Escaped(e)] + InterceptorEvents(chain.invoked)
    case Normal(content) =>
      [HandlerCalled] + InterceptorEvents(chain.invoked) + Emission(Responded(chain.state, content), onError)
  }

  /** One `_.forEach(list, intercept)` of src/route.js:129-136, extending the chain. */
  method ExtendChain<S>(cbs: seq<Callable<S>>, deferred: PromiseState, args: seq<Value>, fuel: nat)
    returns (after: PromiseState, invoked: nat)
    ensures ChainResult(invoked, after) == ChainFrom(cbs, deferred, args, fuel)
  {
    after, invoked := deferred, 0;
    var i := 0;
    while i < |cbs|
      invariant 0 <= i <= |cbs|
      invariant ChainFrom(cbs, deferred, args, fuel).state == ChainFrom(cbs[i..], after, args, fuel).state
      invariant ChainFrom(cbs, deferred, args, fuel).invoked == invoked + ChainFrom(cbs[i..], after, args, fuel).invoked
    {
      assert cbs[i..][1..] == cbs[i + 1..];
      if after.Fulfilled? {
        after := Outcome(cbs[i], args, fuel);
        invoked := invoked + 1;
      } else {
        ChainStaysSettled(cbs[i + 1..], after, args, fuel);
      }
      i := i + 1;
    }
  }

  /** The per-route callback of src/route.js:127-145 for one request: it reads the
      group's `beforeEach` and the router's error handler as they are now. */
  method Respond<S>(router: Router<S>, reg: Registration<S>, args: seq<Value>, fuel: nat) returns (trace: seq<Event>)
    ensures trace == RequestTrace(reg.group.beforeEach, reg.before, reg.handler, router.handler, args, fuel)
  {
    var deferred, n1, n2;
    deferred, n1 := ExtendChain(reg.group.beforeEach, Fulfilled(Undefined), args, fuel);
    deferred, n2 := ExtendChain(reg.before, deferred, args, fuel);
    ChainAppend(reg.group.beforeEach, reg.before, Fulfilled(Undefined), args, fuel);
    var content := CallHandler(reg.handler, args, fuel);
    if content.Abrupt? {
      return [HandlerCalled, Escaped(content.thrown)] + InterceptorEvents(n1 + n2);
    }
    var onError := router.handler;
    var outcome := CallWrapper(Responder(deferred, content.value), Itself, [], ResponderFuel);
    trace := [HandlerCalled] + InterceptorEvents(n1 + n2) + Emission(outcome, onError);
  }

  // ---------------------------------------------------------------------------
  // Properties

  lemma {:induction false} ChainStaysSettled<S>(cbs: seq<Callable<S>>, p: PromiseState, args: seq<Value>, fuel: nat)
    requires !p.Fulfilled?
    ensures ChainFrom(cbs, p, args, fuel) == ChainResult(0, p)
  {
  }

  /** Running two lists one after the other is running their concatenation. */
  lemma {:induction false} ChainAppend<S>(a: seq<Callable<S>>, b: seq<Callable<S>>, p: PromiseState, args: seq<Value>, fuel: nat)
    ensures var ra := ChainFrom(a, p, args, fuel);
            var rb := ChainFrom(b, ra.state, args, fuel);
            ChainFrom(a + b, p, args, fuel) == ChainResult(ra.invoked + rb.invoked, rb.state)
  {
    if a == [] {
      assert a + b == b;
    } else if !p.Fulfilled? {
      ChainStaysSettled(b, p, args, fuel);
    } else {
      assert (a + b)[1..] == a[1..] + b;
      ChainAppend(a[1..], b, Outcome(a[0], args, fuel), args, fuel);
    }
  }

  /** Interceptors run in order, each only after the previous one fulfilled; the
      first one that does not fulfil is the last to run, and decides the chain. */
  lemma {:induction false} ChainStopsAtFirstFailure<S>(cbs: seq<Callable<S>>, k: nat, v: Value, args: seq<Value>, fuel: nat)
    requires k < |cbs| && !Outcome(cbs[k], args, fuel).Fulfilled?
    requires forall i :: 0 <= i < k ==> Outcome(cbs[i], args, fuel).Fulfilled?
    ensures ChainFrom(cbs, Fulfilled(v), args, fuel) == ChainResult(k + 1, Outcome(cbs[k], args, fuel))
  {
    if k == 0 {
      ChainStaysSettled(cbs[1..], Outcome(cbs[0], args, fuel), args, fuel);
    } else {
      assert cbs[1..][k - 1] == cbs[k];
      forall i | 0 <= i < k - 1 ensures Outcome(cbs[1..][i], args, fuel).Fulfilled? {
        assert cbs[1..][i] == cbs[i + 1];
      }
      ChainStopsAtFirstFailure(cbs[1..], k - 1, Outcome(cbs[0], args, fuel).value, args, fuel);
    }
  }

  /** When every interceptor fulfils, all of them run and the chain fulfils with the last one. */
  lemma {:induction false} ChainAllFulfil<S>(cbs: seq<Callable<S>>, v: Value, args: seq<Value>, fuel: nat)
    requires forall i :: 0 <= i < |cbs| ==> Outcome(cbs[i], args, fuel).Fulfilled?
    ensures ChainFrom(cbs, Fulfilled(v), args, fuel)
         == ChainResult(|cbs|, if cbs == [] then Fulfilled(v) else Outcome(cbs[|cbs| - 1], args, fuel))
  {
    if cbs != [] {
      forall i | 0 <= i < |cbs| - 1 ensures Outcome(cbs[1..][i], args, fuel).Fulfilled? {
        assert cbs[1..][i] == cbs[i + 1];
      }
      ChainAllFulfil(cbs[1..], Outcome(cbs[0], args, fuel).value, args, fuel);
      if |cbs| > 1 {
        assert cbs[1..][|cbs| - 2] == cbs[|cbs| - 1];
      }
    }
  }

  /** The responder: a rejected chain goes to the error handler even when the
      handler's result is fine; otherwise the handler's result, awaited if it is
      a promise, decides. */
  lemma ResponderOutcome(chain: PromiseState, content: Value)
    ensures chain.Rejected? ==> Responded(chain, content) == Rejected(chain.reason)
    ensures chain.Pending? ==> Responded(chain, content) == Pending
    ensures chain.Fulfilled? && !content.Promise? ==> Responded(chain, content) == Fulfilled(content)
    ensures chain.Fulfilled? && content.Promise? && content.state.Rejected? ==>
      Responded(chain, content) == Rejected(content.state.reason)
    ensures chain.Fulfilled? && content.Promise? && content.state.Fulfilled? && !content.state.value.Promise? ==>
      Responded(chain, content) == Fulfilled(content.state.value)
    ensures chain.Fulfilled? && content.Promise? && content.state.Pending? ==> Responded(chain, content) == Pending
  {
    var body := ResponderBody(chain, content);
    assert Resumed(body, SuspendedStart(AtStart), Next(Undefined))
        == Transition(SuspendedYield(AwaitingChain), Normal(IterResult(false, Promise(chain))));
  }

  /** The handler is called exactly once per request, first, whatever the interceptors do. */
  lemma HandlerCalledFirstAndOnce<S>(beforeEach: seq<Callable<S>>, before: seq<Callable<S>>, handler: Option<Callable<S>>,
                                     onError: ErrorHandler, args: seq<Value>, fuel: nat)
    ensures var t := RequestTrace(beforeEach, before, handler, onError, args, fuel);
            |t| > 0 && t[0] == HandlerCalled && forall i :: 0 < i < |t| ==> t[i] != HandlerCalled
  {
  }

  /** Counting the responses of a trace: `res.json` calls and error-handler calls. */
  function Responses(t: seq<Event>): nat {
    if t == [] then 0 else (if t[0].Json? || t[0].ErrorHandled? then 1 else 0) + Responses(t[1..])
  }

  lemma {:induction false} ResponsesAppend(a: seq<Event>, b: seq<Event>)
    ensures Responses(a + b) == Responses(a) + Responses(b)
  {
    if a == [] {
      assert a + b == b;
    } else {
      assert (a + b)[1..] == a[1..] + b;
      ResponsesAppend(a[1..], b);
    }
  }

  lemma {:induction false} NoResponseAmongInterceptors(n: nat)
    ensures Responses(InterceptorEvents(n)) == 0
  {
    if n > 0 {
      ResponsesAppend(InterceptorEvents(n - 1), [InterceptorCalled(n - 1)]);
      NoResponseAmongInterceptors(n - 1);
    }
  }

  /**
   * Exactly one of `res.json` or the error handler runs for a request whose handler
   * returned and whose chain and result settle; none when the handler threw.
   */
  lemma ExactlyOneResponse<S>(beforeEach: seq<Callable<S>>, before: seq<Callable<S>>, handler: Option<Callable<S>>,
                              onError: ErrorHandler, args: seq<Value>, fuel: nat)
    ensures var t := RequestTrace(beforeEach, before, handler, onError, args, fuel);
            var chain := ChainFrom(beforeEach + before, Fulfilled(Undefined), args, fuel);
            var content := CallHandler(handler, args, fuel);
            && (content.Abrupt? ==> Responses(t) == 0)
            && (content.Normal? && Responded(chain.state, content.value) != Pending ==> Responses(t) == 1)
  {
    var chain := ChainFrom(beforeEach + before, Fulfilled(Undefined), args, fuel);
    var content := CallHandler(handler, args, fuel);
    NoResponseAmongInterceptors(chain.invoked);
    var evs := InterceptorEvents(chain.invoked);
    if content.Abrupt? {
      ResponsesAppend([HandlerCalled, Escaped(content.thrown)], evs);
    } else {
      var em := Emission(Responded(chain.state, content.value), onError);
      ResponsesAppend([HandlerCalled], evs);
      ResponsesAppend([HandlerCalled] + evs, em);
    }
  }

  /**
   * Short circuit: if interceptor `k` (of beforeEach followed by the snapshot) is the
   * first to reject, the interceptors after it never run and its error reaches the
   * error handler current at request time; `res.json` is not called.
   */
  lemma RejectionShortCircuits<S>(beforeEach: seq<Callable<S>>, before: seq<Callable<S>>, handler: Option<Callable<S>>,
                                  onError: ErrorHandler, args: seq<Value>, fuel: nat, k: nat)
    requires k < |beforeEach + before|
    requires Outcome((beforeEach + before)[k], args, fuel).Rejected?
    requires forall i :: 0 <= i < k ==> Outcome((beforeEach + before)[i], args, fuel).Fulfilled?
    requires CallHandler(handler, args, fuel).Normal?
    ensures RequestTrace(beforeEach, before, handler, onError, args, fuel)
         == [HandlerCalled] + InterceptorEvents(k + 1)
            + [ErrorHandled(onError, Outcome((beforeEach + before)[k], args, fuel).reason)]
  {
    ChainStopsAtFirstFailure(beforeEach + before, k, Undefined, args, fuel);
    ResponderOutcome(Outcome((beforeEach + before)[k], args, fuel), CallHandler(handler, args, fuel).value);
  }

  /**
   * When every interceptor fulfils, all of them run in order, and the handler's
   * (awaited) result is passed to `res.json`.
   */
  lemma AllPassThenJson<S>(beforeEach: seq<Callable<S>>, before: seq<Callable<S>>, handler: Option<Callable<S>>,
                           onError: ErrorHandler, args: seq<Value>, fuel: nat)
    requires forall i :: 0 <= i < |beforeEach + before| ==> Outcome((beforeEach + before)[i], args, fuel).Fulfilled?
    requires CallHandler(handler, args, fuel).Normal?
    requires var c := CallHandler(handler, args, fuel).value;
             c.Promise? ==> c.state.Fulfilled? && !c.state.value.Promise?
    ensures var c := CallHandler(handler, args, fuel).value;
            (RequestTrace(beforeEach, before, handler, onError, args, fuel)
             == [HandlerCalled] + InterceptorEvents(|beforeEach + before|)
                + [Json(if c.Promise? then c.state.value else c)])
  {
    ChainAllFulfil(beforeEach + before, Undefined, args, fuel);
    var chain := ChainFrom(beforeEach + before, Fulfilled(Undefined), args, fuel);
    ResponderOutcome(chain.state, CallHandler(handler, args, fuel).value);
  }

  /** `res.json` is reached only when the whole chain fulfilled. */
  lemma JsonOnlyAfterWholeChain<S>(beforeEach: seq<Callable<S>>, before: seq<Callable<S>>, handler: Option<Callable<S>>,
                                   onError: ErrorHandler, args: seq<Value>, fuel: nat, body: Value)
    requires Json(body) in RequestTrace(beforeEach, before, handler, onError, args, fuel)
    ensures ChainFrom(beforeEach + before, Fulfilled(Undefined), args, fuel).state.Fulfilled?
  {
    var chain := ChainFrom(beforeEach + before, Fulfilled(Undefined), args, fuel);
    var content := CallHandler(handler, args, fuel);
    if !chain.state.Fulfilled? {
      ResponderOutcome(chain.state, content.value);
    }
  }

  lemma VerbIndexOfAt(i: nat)
    requires i < |VerbNames|
    ensures VerbIndex(VerbAt(i)) == i
  {
  }

  lemma VerbAtIndexOf(v: Verb)
    ensures VerbAt(VerbIndex(v)) == v
  {
  }

  /** No two verbs of the table share a name. */
  lemma VerbNamesDistinct()
    ensures forall i, j :: 0 <= i < j < |VerbNames| ==> VerbNames[i] != VerbNames[j]
  {
  }

  lemma {:induction false} FindDistinct(names: seq<string>, k: nat)
    requires k < |names|
    requires forall i, j :: 0 <= i < j < |names| ==> names[i] != names[j]
    ensures FindName(names, names[k]) == Some(k)
  {
    if k > 0 {
      assert names[1..][k - 1] == names[k];
      FindDistinct(names[1..], k - 1);
    }
  }

  /** Every verb of the table is reached again under its own name: the 27 names
      give 27 distinct registrations. */
  lemma VerbTableRoundTrip(v: Verb)
    ensures VerbNamed(VerbName(v)) == Some(v)
  {
    VerbNamesDistinct();
    FindDistinct(VerbNames, VerbIndex(v));
    VerbAtIndexOf(v);
  }

  // ---------------------------------------------------------------------------
  // Endpoint properties

  lemma {:induction false} SegmentLengthOf(s: string, rest: string)
    requires IsSegment(s)
    requires rest == [] || rest[0] == '/'
    ensures SegmentLength(s + rest) == |s|
    decreases |s|
  {
    if |s| > 1 {
      assert (s + rest)[1..] == s[1..] + rest;
      SegmentLengthOf(s[1..], rest);
    } else {
      assert (s + rest)[1..] == rest;
    }
  }

  /** A path without '/' is one segment. */
  lemma SegmentsOfSegment(s: string)
    requires IsSegment(s)
    ensures Segments(s) == [s]
  {
    SegmentLengthOf(s, []);
    assert s + [] == s;
  }

  /** A '/', one segment and a rest that starts a new segment split into that
      segment and the rest's segments. */
  lemma SegmentsOfSlashed(s: string, rest: string)
    requires IsSegment(s)
    requires rest == [] || rest[0] == '/'
    ensures Segments("/" + (s + rest)) == [s] + Segments(rest)
  {
    var p := s + rest;
    assert ("/" + p)[1..] == p;
    SegmentLengthOf(s, rest);
    assert p[..|s|] == s;
    assert p[|s|..] == rest;
  }

  /** Splitting a joined path gives back its segments. */
  lemma {:induction false} SegmentsOfJoin(segs: seq<string>)
    requires forall i :: 0 <= i < |segs| ==> IsSegment(segs[i])
    ensures Segments(JoinSegments(segs)) == segs
  {
    if segs != [] {
      var rest := JoinSegments(segs[1..]);
      assert JoinSegments(segs) == "/" + (segs[0] + rest);
      SegmentsOfSlashed(segs[0], rest);
      SegmentsOfJoin(segs[1..]);
    }
  }

  lemma {:induction false} SegmentsAreSegments(p: string)
    ensures forall i :: 0 <= i < |Segments(p)| ==> IsSegment(Segments(p)[i])
    decreases |p|
  {
    if p != [] {
      if p[0] == '/' {
        SegmentsAreSegments(p[1..]);
      } else {
        var n := SegmentLength(p);
        SegmentsAreSegments(p[n..]);
      }
    }
  }

  /** The endpoint is rooted at '/', and its segments are those of the base
      followed by those of the sub-path (none when the handler came second). */
  lemma EndpointShape(base: string, sub: Option<string>)
    ensures |ResolveEndpoint(base, sub)| > 0 && ResolveEndpoint(base, sub)[0] == '/'
    ensures Segments(ResolveEndpoint(base, sub))
         == Segments(base) + (if sub.Some? then Segments(sub.value) else [])
  {
    var segs := Segments(base) + (if sub.Some? then Segments(sub.value) else []);
    SegmentsAreSegments(base);
    if sub.Some? {
      SegmentsAreSegments(sub.value);
    }
    assert forall i :: 0 <= i < |segs| ==> IsSegment(segs[i]);
    if segs != [] {
      SegmentsOfJoin(segs);
    }
  }

  // ---------------------------------------------------------------------------
  // The local queue is one-shot

  /**
   * The documented usage: with `beforeEach([a, b])` and `method(c)` queued before
   * the first registration, the first route captures `[c]`, the second nothing,
   * and both read the group's `[a, b]`.
   */
  method OneShotQueue<S>(a: Callable<S>, b: Callable<S>, c: Callable<S>, h1: Callable<S>, h2: Callable<S>)
    returns (first: Registration<S>, second: Registration<S>)
    ensures first.before == [c] && second.before == []
    ensures first.group == second.group && first.group.beforeEach == [a, b]
    ensures first.endpoint == "/api/r1" && second.endpoint == "/api"
    ensures first.handler == Some(h1) && second.handler == Some(h2)
  {
    var app := new App<S>();
    var router := new Router(app);
    var g := router.NewGroup(Str("api"));
    g.BeforeEach(Many([a, b]));
    g.Intercept(c);
    var r1 := g.Register(Get, PathArg(Str("r1")), Some(h1));
    var r2 := g.Register(Post, HandlerArg(h2), None);
    first, second := app.routes[0], app.routes[1];
    SegmentsOfSegment("api");
    SegmentsOfSegment("r1");
    assert ["api"] + ["r1"] == ["api", "r1"];
    assert JoinSegments(["api", "r1"]) == "/api" + JoinSegments(["r1"]);
    assert JoinSegments(["r1"]) == "/r1" + JoinSegments([]);
    assert JoinSegments(["api"]) == "/api" + JoinSegments([]);
  }

  /**
   * A registration whose path is left out throws from `path.join` after the queue
   * was emptied: the interceptor queued for it reaches neither it nor the next route.
   */
  method MissingPathLosesQueue<S>(c: Callable<S>, h: Callable<S>)
    returns (failed: Completion<Value>, routes: seq<Registration<S>>)
    ensures failed == Abrupt(PathTypeError)
    ensures |routes| == 1 && routes[0].before == [] && routes[0].endpoint == "/api/r"
  {
    var app := new App<S>();
    var router := new Router(app);
    var g := router.NewGroup(Str("api"));
    g.Intercept(c);
    failed := g.Register(Get, PathArg(Undefined), Some(h));
    var ok := g.Register(Get, PathArg(Str("r")), Some(h));
    routes := app.routes;
    SegmentsOfSegment("api");
    SegmentsOfSegment("r");
    assert ["api"] + ["r"] == ["api", "r"];
    assert JoinSegments(["api", "r"]) == "/api" + JoinSegments(["r"]);
    assert JoinSegments(["r"]) == "/r" + JoinSegments([]);
  }
}
