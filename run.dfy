/**
 * The co-style generator trampoline of src/run.js.
 *
 * A generator body is a step function from its suspended state and the way
 * it is resumed (a sent value or an injected error) to its next yield, its
 * return or its escaping error. `GeneratorObject` is the iterator the driver
 * steps in place; `Drive` is the reference meaning of driving it, and
 * `Execute` is the driver loop of src/run.js proved to compute `Drive`.
 * A fuel bound on the number of resumptions stands in for a run that may
 * never finish.
 */
module Run {
  import opened Js

  /** How a suspended generator is resumed: `it.next(v)` or `it.throw(e)`. */
  datatype Resume = Next(sent: Value) | Throw(error: Value)

  /** What the body does when resumed: yield a value, return one, or raise. */
  datatype Step<S> = Yield(state: S, value: Value) | Return(value: Value) | Raise(error: Value)

  /** The `this` a generator body sees. */
  datatype Receiver = BoundTo(thisArg: Value) | Itself

  /** A `function*`: its call sets up the body's initial state from `this` and the arguments. */
  datatype GeneratorFunction<!S> = GeneratorFunction(start: (Receiver, seq<Value>) -> S, body: (S, Resume) -> Step<S>)

  /** A function value as handlers and interceptors are given: a generator
      function, or a plain function of its arguments (called with the
      Express app as `this`). */
  datatype Callable<!S> =
    | GeneratorFn(gen: GeneratorFunction<S>)
    | PlainFn(call: seq<Value> -> Completion<Value>)

  /** `isGenerator` (src/run.js:3-4): is the function a `function*`. */
  predicate IsGenerator<S>(f: Callable<S>) {
    f.GeneratorFn?
  }

  /** The state of a generator object. */
  datatype GenState<S> = SuspendedStart(s: S) | SuspendedYield(s: S) | Closed

  /** What `it.next()` / `it.throw()` return when they do not throw. */
  datatype IterResult = IterResult(done: bool, value: Value)

  /** A generator's new state together with the completion of the resuming call. */
  datatype Transition<S> = Transition(after: GenState<S>, result: Completion<IterResult>)

  function Enter<S>(step: Step<S>): Transition<S> {
    match step
    case Yield(s, v) => Transition(SuspendedYield(s), Normal(IterResult(false, v)))
    case Return(v) => Transition(Closed, Normal(IterResult(true, v)))
    case Raise(e) => Transition(Closed, Abrupt(e))
  }

  /** Resuming a generator object, as the language defines `next` and `throw`. */
  function Resumed<S>(body: (S, Resume) -> Step<S>, g: GenState<S>, r: Resume): (t: Transition<S>)
    ensures t.result.Abrupt? ==> t.after.Closed?
    ensures t.result.Normal? ==> (t.result.value.done <==> t.after.Closed?)
    ensures g.Closed? && r.Next? ==> t == Transition(Closed, Normal(IterResult(true, Undefined)))
    ensures g.Closed? && r.Throw? ==> t == Transition(Closed, Abrupt(r.error))
    ensures g.SuspendedStart? && r.Throw? ==> t == Transition(Closed, Abrupt(r.error))
  {
    match g
    case Closed =>
      if r.Next? then Transition(Closed, Normal(IterResult(true, Undefined))) else Transition(Closed, Abrupt(r.error))
    case SuspendedStart(s) =>
      // the value sent by the first `next` is discarded; a `throw` before it closes the generator
      if r.Throw? then Transition(Closed, Abrupt(r.error)) else Enter(body(s, Next(Undefined)))
    case SuspendedYield(s) =>
      Enter(body(s, r))
  }

  /** A generator object (an iterator), stepped in place by the driver. */
  class GeneratorObject<S> {
    const body: (S, Resume) -> Step<S>
    var state: GenState<S>

    /** Calling a generator function: nothing of the body runs yet. */
    constructor (gen: GeneratorFunction<S>, receiver: Receiver, args: seq<Value>)
      ensures body == gen.body && state == SuspendedStart(gen.start(receiver, args))
    {
      body := gen.body;
      state := SuspendedStart(gen.start(receiver, args));
    }

    method Next(v: Value) returns (r: Completion<IterResult>)
      modifies this
      ensures Transition(state, r) == Resumed(body, old(state), Resume.Next(v))
    {
      var t := Resumed(body, state, Resume.Next(v));
      state, r := t.after, t.result;
    }

    method Throw(e: Value) returns (r: Completion<IterResult>)
      modifies this
      ensures Transition(state, r) == Resumed(body, old(state), Resume.Throw(e))
    {
      var t := Resumed(body, state, Resume.Throw(e));
      state, r := t.after, t.result;
    }
  }

  /** `Promise.all(items)` over settled members: plain members pass through, the
      result keeps positional order, and the first rejected member (by position)
      decides a rejection. */
  function All(items: seq<Value>): (p: PromiseState)
    ensures p.Fulfilled? ==> p.value.Arr? && |p.value.items| == |items|
  {
    if items == [] then Fulfilled(Arr([]))
    else
      var head := Adopt(items[0]);
      var tail := All(items[1..]);
      if head.Rejected? then head
      else if tail.Rejected? then tail
      else if head.Pending? || tail.Pending? then Pending
      else Fulfilled(Arr([head.value] + tail.value.items))
  }

  /** A value the driver must wait for rather than send straight back. */
  predicate Suspends(v: Value) {
    v.Arr? || v.Promise?
  }

  /** What the driver waits for on a yielded value (src/run.js:53-56). */
  function Awaited(v: Value): PromiseState {
    if v.Arr? then All(v.items) else if v.Promise? then v.state else Fulfilled(v)
  }

  /**
   * The reference meaning of driving generator `g`, resumed first with `r`:
   * each yielded value is awaited and the generator resumed with its value or
   * its rejection; the run settles with the returned value (a returned promise
   * adopted) or the escaping error. `Pending` when it does not settle within
   * `fuel` resumptions after a yield.
   */
  function Drive<S>(body: (S, Resume) -> Step<S>, g: GenState<S>, r: Resume, fuel: nat): PromiseState
    decreases fuel
  {
    var t := Resumed(body, g, r);
    match t.result
    case Abrupt(e) => Rejected(e)
    case Normal(res) =>
      if res.done then Adopt(res.value)
      else if fuel == 0 then Pending
      else
        match Awaited(res.value)
        case Fulfilled(x) => Drive(body, t.after, Next(x), fuel - 1)
        case Rejected(e) => Drive(body, t.after, Throw(e), fuel - 1)
        case Pending => Pending
  }

  /** Where the driver's code is running when the generator is resumed. */
  datatype Context =
    | InExecutor       // the promise executor (src/run.js:35-36, 58)
    | InThenCallback   // the success callback of `then` (src/run.js:38-41)
    | InCatchHandler   // the `catch` handler's try block (src/run.js:43-45)

  function Rank(c: Context): nat {
    if c.InThenCallback? then 1 else 0
  }

  /**
   * The driver of src/run.js:33-60. An exception escaping the success callback
   * reaches the `catch` handler, which throws it into the (now closed)
   * generator; only the executor and the `catch` handler settle the promise
   * with an error. Settles at most once: the method returns with the outcome.
   */
  method Execute<S>(it: GeneratorObject<S>, fuel: nat) returns (outcome: PromiseState)
    modifies it
    ensures outcome == Drive(it.body, old(it.state), Next(Undefined), fuel)
    ensures outcome != Pending ==> it.state.Closed?
  {
    ghost var g, r := it.state, Next(Undefined);
    var cur := it.Next(Undefined);
    var ctx := InExecutor;
    var left := fuel;
    while true
      invariant Transition(it.state, cur) == Resumed(it.body, g, r)
      invariant Drive(it.body, g, r, left) == Drive(it.body, old(it.state), Next(Undefined), fuel)
      decreases left, Rank(ctx)
    {
      match cur
      case Abrupt(e) =>
        if ctx.InThenCallback? {
          g, r := it.state, Throw(e);
          cur := it.Throw(e);
          ctx := InCatchHandler;
        } else {
          return Rejected(e);
        }
      case Normal(res) =>
        if res.done {
          return Adopt(res.value);
        }
        if left == 0 {
          return Pending;
        }
        left := left - 1;
        if Suspends(res.value) {
          match Awaited(res.value)
          case Pending =>
            return Pending;
          case Fulfilled(x) =>
            g, r := it.state, Next(x);
            cur := it.Next(x);
            ctx := InThenCallback;
          case Rejected(e) =>
            g, r := it.state, Throw(e);
            cur := it.Throw(e);
            ctx := InCatchHandler;
        } else {
          g, r := it.state, Next(res.value);
          cur := it.Next(res.value);
        }
    }
  }

  /** What `out(runnable, thisArg)` receives: a function, or an existing iterator. */
  datatype Runnable<!S> = Function(f: Callable<S>) | Iterator(it: GeneratorObject<S>)

  /** What `out` returns: a wrapping function, or the promise of a run already started. */
  datatype OutResult<!S> = Wrapper(gen: GeneratorFunction<S>, receiver: Receiver) | Started(outcome: PromiseState)

  /** The receiver the wrapper binds: `thisArg || runnable`. */
  function ReceiverFor(thisArg: Value): (rv: Receiver)
    ensures rv.BoundTo? <==> Truthy(thisArg)
    ensures rv.BoundTo? ==> rv.thisArg == thisArg
  {
    if Truthy(thisArg) then BoundTo(thisArg) else Itself
  }

  /** The model of `out` (src/run.js:61-66). Anything that is not a generator
      function is driven as an iterator at once; a plain function has no `next`,
      so that run rejects with a `TypeError`. */
  method Out<S>(runnable: Runnable<S>, thisArg: Value, fuel: nat) returns (r: OutResult<S>)
    modifies if runnable.Iterator? then {runnable.it} else {}
    ensures runnable.Function? && IsGenerator(runnable.f) ==> r == Wrapper(runnable.f.gen, ReceiverFor(thisArg))
    ensures runnable.Function? && !IsGenerator(runnable.f) ==> r == Started(Rejected(TypeErrorValue("it.next is not a function")))
    ensures runnable.Iterator? ==> r == Started(Drive(runnable.it.body, old(runnable.it.state), Next(Undefined), fuel))
  {
    match runnable
    case Function(f) =>
      if IsGenerator(f) {
        r := Wrapper(f.gen, ReceiverFor(thisArg));
      } else {
        r := Started(Rejected(TypeErrorValue("it.next is not a function")));
      }
    case Iterator(it) =>
      var outcome := Execute(it, fuel);
      r := Started(outcome);
  }

  /** Calling the wrapper returned for a generator function (src/run.js:62-64):
      the arguments go to the generator, which is driven from its start. */
  method CallWrapper<S>(gen: GeneratorFunction<S>, receiver: Receiver, args: seq<Value>, fuel: nat) returns (p: PromiseState)
    ensures p == Drive(gen.body, SuspendedStart(gen.start(receiver, args)), Next(Undefined), fuel)
  {
    var it := new GeneratorObject(gen, receiver, args);
    p := Execute(it, fuel);
  }

  // ---------------------------------------------------------------------------
  // Properties of the trampoline

  /** The positional batch: `Promise.all` fulfils exactly when every member does,
      with member `i`'s value at position `i`. */
  lemma {:induction false} AllFulfilled(items: seq<Value>)
    ensures All(items).Fulfilled? <==> forall i :: 0 <= i < |items| ==> Adopt(items[i]).Fulfilled?
    ensures All(items).Fulfilled? ==>
      forall i :: 0 <= i < |items| ==> All(items).value.items[i] == Adopt(items[i]).value
  {
    if items != [] {
      AllFulfilled(items[1..]);
      assert forall i :: 1 <= i < |items| ==> items[i] == items[1..][i - 1];
    }
  }

  /** First failure wins: if member `k` is the first rejected one, the batch
      rejects with its reason, whatever the later members do. */
  lemma {:induction false} AllFirstRejection(items: seq<Value>, k: nat)
    requires k < |items| && Adopt(items[k]).Rejected?
    requires forall i :: 0 <= i < k ==> !Adopt(items[i]).Rejected?
    ensures All(items) == Rejected(Adopt(items[k]).reason)
  {
    if k > 0 {
      assert items[1..][k - 1] == items[k];
      forall i | 0 <= i < k - 1 ensures !Adopt(items[1..][i]).Rejected? {
        assert items[1..][i] == items[i + 1];
      }
      AllFirstRejection(items[1..], k - 1);
    }
  }

  /** A batch rejects only with the reason of some rejected member. */
  lemma {:induction false} AllRejectsOnlyFromMember(items: seq<Value>)
    requires All(items).Rejected?
    ensures exists k :: 0 <= k < |items| && Adopt(items[k]) == All(items)
  {
    if !Adopt(items[0]).Rejected? {
      AllRejectsOnlyFromMember(items[1..]);
      var k :| 0 <= k < |items[1..]| && Adopt(items[1..][k]) == All(items[1..]);
      assert items[k + 1] == items[1..][k];
    }
  }

  /** `isGenerator` tells a `function*` from a plain function. */
  lemma IsGeneratorDistinguishes<S>(gen: GeneratorFunction<S>, f: seq<Value> -> Completion<Value>)
    ensures IsGenerator(GeneratorFn(gen)) && !IsGenerator<S>(PlainFn(f))
  {
  }

  /** A plain yielded value is sent straight back with `next`, with no waiting. */
  lemma PlainValueSentBack<S>(body: (S, Resume) -> Step<S>, g: GenState<S>, r: Resume, fuel: nat)
    requires Resumed(body, g, r).result.Normal?
    requires !Resumed(body, g, r).result.value.done
    requires !Suspends(Resumed(body, g, r).result.value.value)
    ensures Drive(body, g, r, fuel + 1)
         == Drive(body, Resumed(body, g, r).after, Next(Resumed(body, g, r).result.value.value), fuel)
  {
  }

  /** An awaited promise, or an array batch, that fulfils resumes the generator
      with its value (for a batch, the members' values in position order). */
  lemma FulfilledAwaitResumes<S>(body: (S, Resume) -> Step<S>, g: GenState<S>, r: Resume, fuel: nat)
    requires Resumed(body, g, r).result.Normal?
    requires !Resumed(body, g, r).result.value.done
    requires Awaited(Resumed(body, g, r).result.value.value).Fulfilled?
    ensures Drive(body, g, r, fuel + 1)
         == Drive(body, Resumed(body, g, r).after, Next(Awaited(Resumed(body, g, r).result.value.value).value), fuel)
  {
  }

  /** On `done` the run settles with the returned value, a returned promise adopted. */
  lemma ReturnSettles<S>(body: (S, Resume) -> Step<S>, g: GenState<S>, r: Resume, fuel: nat)
    requires Resumed(body, g, r).result.Normal? && Resumed(body, g, r).result.value.done
    ensures Drive(body, g, r, fuel) == Adopt(Resumed(body, g, r).result.value.value)
  {
  }

  /** A rejected await is thrown into the generator at its yield: if the body
      catches it and goes on, driving goes on from there. */
  lemma RejectionInjected<S>(body: (S, Resume) -> Step<S>, g: GenState<S>, r: Resume, fuel: nat)
    requires Resumed(body, g, r).result.Normal?
    requires !Resumed(body, g, r).result.value.done
    requires Awaited(Resumed(body, g, r).result.value.value).Rejected?
    ensures Drive(body, g, r, fuel + 1)
         == Drive(body, Resumed(body, g, r).after, Throw(Awaited(Resumed(body, g, r).result.value.value).reason), fuel)
  {
  }

  /** An error the body raises, before its first yield or after any resumption,
      rejects the run with that very error. */
  lemma RaiseRejects<S>(body: (S, Resume) -> Step<S>, g: GenState<S>, r: Resume, fuel: nat)
    requires (g.SuspendedYield? && body(g.s, r).Raise?) || (g.SuspendedStart? && r.Next? && body(g.s, Next(Undefined)).Raise?)
    ensures Drive(body, g, r, fuel) == Rejected(if g.SuspendedYield? then body(g.s, r).error else body(g.s, Next(Undefined)).error)
  {
  }

  /** A closed generator is inert: it never runs its body or yields again, so
      nothing resumes it after the run settled. */
  lemma ClosedIsInert<S>(body: (S, Resume) -> Step<S>, r: Resume, fuel: nat)
    ensures Resumed(body, Closed, r).after == Closed
    ensures Drive(body, Closed, r, fuel) == if r.Next? then Fulfilled(Undefined) else Rejected(r.error)
  {
  }

  /** Settlement is final: once the run settles within some fuel, more fuel gives
      the same outcome, so there is exactly one terminal outcome. */
  lemma {:induction false} DriveSettlesOnce<S>(body: (S, Resume) -> Step<S>, g: GenState<S>, r: Resume, f1: nat, f2: nat)
    requires f1 <= f2
    requires Drive(body, g, r, f1) != Pending
    ensures Drive(body, g, r, f2) == Drive(body, g, r, f1)
    decreases f1
  {
    var t := Resumed(body, g, r);
    if t.result.Normal? && !t.result.value.done && f1 > 0 {
      match Awaited(t.result.value.value)
      case Fulfilled(x) => DriveSettlesOnce(body, t.after, Next(x), f1 - 1, f2 - 1);
      case Rejected(e) => DriveSettlesOnce(body, t.after, Throw(e), f1 - 1, f2 - 1);
      case Pending =>
    }
  }
}
