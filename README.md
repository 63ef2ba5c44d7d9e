# Fritz core, modelled in Dafny

Fritz is an Express/PostgreSQL toolkit. This project models four pieces of its
core and proves properties about them:

- **`run`** (`run.dfy`, module `Run`) is the co-style generator trampoline. A
  generator body is a step function from its suspended state and a resumption
  (`next(v)` or `throw(e)`) to a yield, a return or a raised error.
  `GeneratorObject` is the iterator the driver steps in place.
  - `Drive` is the reference meaning of a run.
  - `Execute` is the driver loop, with its three calling contexts (promise
    executor, `then` callback, `catch` handler); it is proved to compute `Drive`.
- **`route`** (`route.dfy`, module `Route`) covers route groups and the
  per-request pipeline. `Group` holds the `beforeEach` list and the one-shot
  local interceptor queue. `Router` holds the replaceable error handler, and
  `App` records the registrations.
  - One request is the event trace `RequestTrace`.
  - `Respond` is the per-route callback, proved to produce that trace.
- **`apiError`** (`api_error.dfy`, module `ApiErrors`):
  - the `ERROR_CODES` table;
  - the `ApiError` constructor with its defaults;
  - `error(msg, code)`, the per-key helpers and `fatal`;
  - the error handler, as a function (`Handle`) and as a method on a response
    (`Response.HandleError`).
- **`model`** (`model.dfy`, module `Model`) is the record logic:
  - the validation rules;
  - the `Model` constructor, `validate`, `update`, `safe`, `params` and `read`;
  - the query post-processors `required`, `unique` and `of`, and query naming.

`js.dfy` (module `Js`) is the JavaScript value domain they share:
- values;
- promise states (`Fulfilled`, `Rejected`, or `Pending` for a promise that
  never settles);
- error objects;
- call completions (return or throw);
- truthiness, property reads and `String(v)`.

Futures are settled outcomes. Database statements, `shortid` and the email
pattern are parameters of the operations that use them.

## Model

| member | source | states |
|---|---|---|
| Run.IsGeneratorDistinguishes | src/run.js:3-4 | `isGenerator` is true for a generator function and false for a plain function |
| Run.Resumed | src/run.js:36-55 | an error escaping `next`/`throw` closes the generator; a result is `done` exactly when the generator is closed; `next` on a closed generator is `{done: true, value: undefined}`; `throw` on a closed or not-yet-started generator rethrows the error |
| Run.GeneratorObject.constructor | src/run.js:63 | calling a generator function runs none of its body; the body starts from `this` and the arguments |
| Run.GeneratorObject.Next | src/run.js:36-55 | `it.next(v)` moves the iterator to the state that resuming with `v` defines, and returns that resumption's result |
| Run.GeneratorObject.Throw | src/run.js:44 | `it.throw(e)` moves the iterator to the state that injecting `e` defines, and returns that resumption's result |
| Run.All | src/run.js:53 | a fulfilled `Promise.all` is an array of the batch's length |
| Run.AllFulfilled | src/run.js:53 | a batch fulfils exactly when every member fulfils, and member `i`'s value sits at position `i` |
| Run.AllFirstRejection | src/run.js:53 | the first rejected member by position decides the batch's rejection |
| Run.AllRejectsOnlyFromMember | src/run.js:53 | a batch rejects only with the outcome of one of its members |
| Run.Execute | src/run.js:33-60 | the driver settles with exactly the reference outcome `Drive`, and a settled run leaves the iterator closed; an error escaping the `then` callback is thrown into the closed generator and then rejects |
| Run.PlainValueSentBack | src/run.js:55-56 | a yielded value that is neither an array nor a promise is sent straight back with `next` |
| Run.FulfilledAwaitResumes | src/run.js:37-41 | a fulfilled awaited promise or batch resumes the generator with its value |
| Run.RejectionInjected | src/run.js:42-48 | a rejected await is thrown into the generator at the yield, and driving continues from what the body does with it |
| Run.RaiseRejects | src/run.js:35-48 | an error the body raises, before the first yield or after any resumption, rejects the run with that error |
| Run.ReturnSettles | src/run.js:52 | on `done` the run resolves with the returned value, and a returned promise is adopted |
| Run.ClosedIsInert | src/run.js:47-52 | a closed generator stays closed and never runs its body again |
| Run.DriveSettlesOnce | src/run.js:35-60 | once a run settles, more resumptions cannot change the outcome, so there is exactly one terminal outcome |
| Run.Out | src/run.js:61-66 | a generator function gives a wrapper whose `this` is `thisArg` when it is truthy, or else the generator function itself; any other argument is driven at once as an iterator; a plain function (no `next`) gives a promise rejected with a `TypeError` |
| Run.CallWrapper | src/run.js:62-64 | calling the wrapper passes its arguments to the generator and drives it from the start with the `Drive` outcome |
| ApiErrors.FindIn | src/api.error.js:105 | the lookup finds an entry whose code equals the given code, or reports that no entry has it |
| ApiErrors.CodesDistinct | src/api.error.js:3-44 | the table's codes are pairwise distinct |
| ApiErrors.LookupFindsEntry | src/api.error.js:105 | looking up an entry's code finds that entry |
| ApiErrors.NewApiError | src/api.error.js:95-114 | `name` is always `ApiError` and the error is logged iff its code is 500; an `Error` argument gives code 500, the generic message and the original stack; otherwise a falsy code becomes 400, a truthy message is converted to a string, a falsy one takes the table message, and a code missing from the table throws a `TypeError` |
| ApiErrors.DefaultIsBadRequest | src/api.error.js:101-106 | with neither code nor message the error is a 400 with the table's Bad Request text |
| ApiErrors.UnknownCodeThrows | src/api.error.js:104-105 | a code outside the table with no message makes `error(msg, code)` throw instead of returning a promise |
| ApiErrors.TableCodesConstruct | src/api.error.js:100-109 | every code in the table constructs with its table message when no message is given |
| ApiErrors.Reject | src/api.error.js:117-122 | `error(msg, code)` returns a promise rejected with exactly its `.throwable`, or throws what the constructor throws |
| ApiErrors.Helper | src/api.error.js:123-125 | each named helper never throws, uses its table code, and uses its table message when `msg` is falsy (an `Error` message gives 500) |
| ApiErrors.Fatal | src/api.error.js:126 | `fatal` is always code 500 and logged; its message is the given one, or the generic text |
| ApiErrors.Handle | src/api.error.js:135-155 | an `ApiError` gives its own code as status; another `Error` gives status 500, a log entry and an overwritten message; another value gives its truthy `status` (logged iff 500), or no status; the body is always `{error: message}`; reading `status` of `undefined`/`null` throws |
| ApiErrors.Response.HandleError | src/api.error.js:135-155 | on a response: the status is set as `Handle` says, exactly one body is sent, and the log grows only for a logged error |
| Route.VerbNamed | src/route.js:190-194 | the verb lookup succeeds exactly for the table's names, and the verb found under a name carries that name |
| Route.VerbNamesDistinct | src/route.js:162-189 | the 27 verb names are pairwise distinct |
| Route.VerbTableRoundTrip | src/route.js:162-194 | every verb is reached again through its own name |
| Route.Router.constructor | src/route.js:11 | the initial error handler is the default `apiError.handler` |
| Route.Router.SetErrorHandler | src/route.js:201-203 | `setErrorHandler` replaces the handler later requests read |
| Route.Router.NewGroup | src/route.js:198-200 | each `route(base, cb)` gets a fresh group with empty `beforeEach` and local lists |
| Route.Group.constructor | src/route.js:111-113 | a group starts with empty `beforeEach` and local interceptor lists |
| Route.Group.Intercept | src/route.js:148-150 | `method(fn)` appends to the local queue |
| Route.Group.BeforeEach | src/route.js:152-158 | `beforeEach` appends every element of an array in order, or pushes one interceptor |
| Route.Group.Register | src/route.js:114-127 | a registration snapshots the local queue into the route and resets it to empty; the handler is the function argument when it comes second; the endpoint is resolved from base and path; when the base or the path is not a string, `path.join` throws a `TypeError`, nothing is registered and the queue stays emptied |
| Route.MissingPathLosesQueue | src/route.js:114-126 | an interceptor queued for a registration whose path is left out reaches neither that registration, which throws, nor the next one |
| Route.EndpointShape | src/route.js:117-126 | the endpoint starts with `/`, and its segments are the base's, followed by the sub-path's when a path was given |
| Route.SegmentsOfJoin | src/route.js:126 | splitting a joined path gives back its segments |
| Route.ChainFrom | src/route.js:128-136 | the number of interceptors invoked never exceeds the list |
| Route.ExtendChain | src/route.js:129-136 | the per-request `forEach` extending `deferred` computes the chain `ChainFrom` |
| Route.ChainAppend | src/route.js:135-136 | running `beforeEach` and then the route's snapshot is running their concatenation |
| Route.ChainStopsAtFirstFailure | src/route.js:128-136 | interceptors run in order, each after the previous fulfilled; the first that does not fulfil is the last one run and decides the chain |
| Route.ChainAllFulfil | src/route.js:128-136 | when every interceptor fulfils, all of them run |
| Route.ResponderOutcome | src/route.js:138-143 | the responder rejects with the chain's rejection even if the handler's result is fine; otherwise it passes the handler's result, awaited if it is a promise |
| Route.Respond | src/route.js:127-145 | one request produces exactly the trace `RequestTrace`, reading the group's `beforeEach` and the error handler current at request time |
| Route.HandlerCalledFirstAndOnce | src/route.js:137 | the handler is called once per request, first, before any interceptor runs |
| Route.ExactlyOneResponse | src/route.js:137-145 | when the handler returns and the outcome settles, exactly one of `res.json` or the error handler runs; when the handler throws, neither runs |
| Route.RejectionShortCircuits | src/route.js:128-145 | the first rejecting interceptor stops the chain, and its error goes to the current error handler |
| Route.AllPassThenJson | src/route.js:128-143 | when every interceptor fulfils, all run in order and the handler's awaited result goes to `res.json` |
| Route.JsonOnlyAfterWholeChain | src/route.js:138-143 | `res.json` is reached only if the whole chain fulfilled |
| Route.OneShotQueue | src/route.js:111-158 | a queued interceptor applies only to the next registration, while `beforeEach` applies to every route of the group |
| Model.StringRulesAcceptMissing | src/model.js:162-169 | as written, `password`, `name` and `nonempty` accept a missing value, because the test sees the string "undefined" |
| Model.StrictRulesRefuseNonStrings | src/model.js:162-169 | the corrected rules refuse every non-string, and agree with the rules as written on strings |
| Model.NameAcceptsBlank | src/model.js:216-219 | the look-ahead `(?!\\s*$)` refuses a backslash followed by `s`s, not blank text: three spaces pass `name` |
| Model.CopyKeys | src/model.js:321-323 | copying keys sets exactly those keys to the source's values and keeps every other key |
| Model.New | src/model.js:319-324 | `new Model(obj)` throws on `undefined`/`null`; otherwise the instance has exactly the fields `NewFields` gives |
| Model.ConstructorFields | src/model.js:319-324 | an instance has exactly `_id` and the descriptor's keys, each property taken from `obj`; `_id` is `obj._id` when valid, else a generated id |
| Model.FirstFailing | src/model.js:411-415 | finds the first property in declaration order whose rule fails, or reports that all pass |
| Model.Validate | src/model.js:409-418 | `validate` rejects exactly when `Validation` gives a reason, with that reason, which is the promise `apiError` returns as written (`AsWritten`) or the `ApiError` itself as corrected (`Corrected`); otherwise it resolves with a new instance of the validating model (its descriptor) built from `obj` |
| Model.ValidateAcceptsIffAllPass | src/model.js:409-418 | `validate` resolves exactly when every property's rule passes |
| Model.FirstFailureWins | src/model.js:411-415 | the first failing rule in declaration order decides the rejection, as written and as corrected |
| Model.ValidationAsWrittenLosesStatus | src/model.js:409-418 | as written, a failed `validate` rejects with a promise, and the error handler then sets no status and sends `{error: undefined}` |
| Model.FirstFailingIs | src/model.js:411-415 | when rule `k` fails and every earlier rule passes, `k` is the first failing position |
| Model.ReasonIsBadRequest | src/model.js:413 | the corrected rejection is an `ApiError` 400 with the rule's message, or the table text if the rule has none |
| Model.ReasonAsWrittenLosesStatus | src/model.js:413 | as written, the reason is a promise, and the error handler sets no status and sends `{error: undefined}` |
| Model.ReasonAnswersBadRequest | src/model.js:413 | with the corrected reason the error handler answers 400 with the rule's message |
| Model.Instance.Update | src/model.js:371-380 | every key of a truthy plain object is copied onto the instance; it is validated before the update is issued, and a failure rejects with `validate`'s reason, as written or as corrected; only a valid instance issues its `params`; it resolves to the same instance |
| Model.MergedKeys | src/model.js:372-376 | after `update`, the instance has every key of `obj` with `obj`'s value, and keeps its other keys |
| Model.ParamsOf | src/model.js:276-281 | `params` is the `_id` and the JSON form of every other key: keys whose value is `undefined` are dropped, and each remaining value is as JSON carries it; the object itself is unchanged |
| Model.JsonCopyOfPlain | src/model.js:280 | JSON carries a value with no `undefined`, promise or error in it unchanged |
| Model.ParamsRoundTrip | src/model.js:276-283 | a stored row read back with `JSONB` is the original object when its values other than `_id` hold no `undefined`, promise or error |
| Model.ParamsDropsUndefined | src/model.js:276-283 | a property stored as `undefined`, as the constructor stores a missing one, is absent from the row read back |
| Model.Without | src/model.js:431 | `_.without` keeps exactly the members not among the removed values |
| Model.Unprotected | src/model.js:433-440 | the `forEach` of `safe` copies each key that `protect` does not include |
| Model.Instance.Safe | src/model.js:426-442 | `safe` outputs `_id` and the descriptor's properties not in `protect`, after an override with an array `protect` removes the overridden names from it; an array passed as override gets the copy of `protect` put at its front |
| Model.SafeHidesProtected | src/model.js:426-441 | a property listed in an array `protect` is not output unless the override names it |
| Model.SafeOverrideReallows | src/model.js:428-440 | a property named in the override is output again, with the instance's value |
| Model.SafeWithoutProtect | src/model.js:427-440 | when `protect` is not an array, a string or an object, nothing is hidden |
| Model.SafeStringProtectIsSubstring | src/model.js:437 | a string `protect` is searched as text, so `"password"` hides a property `pass` |
| Model.Read | src/model.js:356-363 | `read` rejects with "Unexpected row count: N" unless exactly one row came back, and otherwise builds an instance from that row's data |
| Model.RowData | src/model.js:531-533 | a query result is mapped to the rows' `data`, in order |
| Model.Required | src/model.js:541-555 | a non-empty result passes through unchanged; an empty or missing one rejects with the given `Error`, or by default with 404 Not Found |
| Model.Unique | src/model.js:483-499 | `unique(null)` resolves `null` whatever the rows; more than one row rejects with the given `Error`, or by default with a 500 `ApiError`; otherwise it gives the first row (or `undefined`) |
| Model.OfOne | src/model.js:507-510 | `of()` after `unique` builds a `Model` instance from the result |
| Model.MapRows | src/model.js:516-519 | each row is constructed in order, row `i` with id number `i`, and the result rejects exactly when some row's constructor throws |
| Model.MapRowsFirstThrow | src/model.js:516-519 | a failed mapping rejects with the error of the first row whose constructor throws |
| Model.OfList | src/model.js:515-520 | `of()` on a list gives, in order, the construction of each row; it rejects exactly when some row's constructor throws, with the first such error; a missing result maps to an empty list |
| Model.RequiredUniqueChain | src/model.js:541-559 | `required().unique()` gives the single row's data, and a 404 when there is no row |
| Model.UpperIdempotent | src/model.js:471 | upper-casing an upper-cased name changes nothing |
| Model.QueryNameCollision | src/model.js:471-473 | two query keys of one table get the same statement name, so the later overwrites the earlier on `Model`, exactly when they agree up to letter case |

## Notes on the code

Where the comments in the code and the code itself disagree, the model follows
the code:

- `run(fn, thisArg)` with a plain function does not call it. The function is
  treated as an iterator, and the run rejects with a `TypeError`
  ("it.next is not a function").
- The route handler is called while the request callback runs
  (src/route.js:137), before any interceptor. Only `res.json` and the error
  handler wait for the chain.
- A generator handler or interceptor is wrapped with `run(cb)` without a
  `thisArg`, so it runs with the generator function itself as `this`.
- `safe()` calls `_.includes` on `protect`:
  - an array `protect` is tested for membership;
  - a string `protect` is searched as a substring;
  - for a plain object, its values are searched.

## Findings

| source | as written | input that shows it | evidently intended | confidence | as-written member | corrected member |
|---|---|---|---|---|---|---|
| src/model.js:413 | `reject(apiError(rule.message))` rejects `validate` with the promise that `apiError` returns, because `reject` does not adopt promises | descriptor `{name: valid.name}`, object `{name: "a"}`: the route's error handler receives a promise, sets no status and sends `{error: undefined}` | reject with the `ApiError` itself (`.throwable`), which answers 400 with the rule's message | not executed | Model.ValidationAsWrittenLosesStatus | Model.ReasonAnswersBadRequest |
| src/model.js:164-166 | `regex.test(value)` converts a missing value to the string "undefined" | an object without `password`, checked by `valid.password`: "undefined" has nine characters, so the rule passes (likewise `name` and `nonempty`) | a value that is not a string fails the string rules | not executed | Model.StringRulesAcceptMissing | Model.StrictRulesRefuseNonStrings |

`Validate` and `Update` take a `Rejection` argument. With `AsWritten` they reject
with `Model.ReasonAsWritten`, the promise, as the code does. With `Corrected` they
reject with `Model.Reason`, the `ApiError`. The rules as written (`PasswordRule`,
`NameRule`, `NonemptyRule`) and their corrected forms (`StrictPasswordRule`,
`StrictNameRule`, `StrictNonemptyRule`) are both defined.

## Left out

- Drive: a run that needs more resumptions than the fuel bound is `Pending`.
  Genuinely non-terminating generators are not told apart from slow ones.
- Route.Respond: the responder generator is driven with a fuel of 2, which is
  enough for its two yields.
- Timing: microtask order and real asynchrony are not modelled. Futures are
  already-settled outcomes, and `Promise.all` is positional first-failure.
  In real time, the earliest rejection wins, not the first by position.
- Thenables other than promises are not modelled. A promise fulfilled with
  another promise is not modelled either, because the runtime flattens it.
- Numbers are unbounded integers, so `NaN`, fractions and floating point are
  not modelled.
- Objects are maps:
  - key order is not modelled;
  - object identity is not modelled (array members compare by value in
    `_.without` and `_.includes`);
  - getters, prototypes and the properties of primitives (strings, numbers,
    booleans), arrays, errors and promises are not modelled: reading one, such
    as `"abc".length`, gives `undefined`.
- `path.join` is modelled as splitting on `/` and rejoining the non-empty
  segments. It does not handle `.`, `..`, a trailing slash or backslashes.
- Express is not modelled: `app[method]` is a recorded registration, and
  `res.json` and `res.status` are recorded outputs. A registration without a
  handler throws a `TypeError` on each request.
- Interceptors that are not functions are left out, and so are custom error
  handlers' behaviour: the trace records which handler received the error.
- `log.error` is a logged flag or a log list entry. The error stack is a
  string parameter.
- `shortid` is an oracle: `isValid` is a predicate and `generate` an indexed
  supply. Freshness of generated ids is not modelled.
- The email pattern is a parameter, not an implemented regular expression.
- Model.ParamsOf / Model.ParamsRoundTrip: `JSON.stringify` is modelled by
  `JsonCopy`. It drops `undefined` object members, writes `undefined` array
  members as `null`, gives `{}` for a promise or a plain error, and keeps an
  `ApiError`'s `code` and `name`. The serialised text, `toJSON` methods and
  number formatting are not modelled. The round trip is promised only for
  values JSON carries unchanged.
- SQL text, `createModelTable`, table creation at model definition, the
  prepared-statement objects, `create`, static `create` and `delete`: these
  only issue statements, and their results are parameters elsewhere.
- `console.log` in `required` is not modelled.
- Model.Instance.Update: only the keys of a plain object are copied. An array,
  string or error object passed to `update` copies nothing in the model,
  although lodash would iterate its indices or own properties.
- Model.OfList: `_.map` over a string or plain object result is not modelled
  and gives an empty list.
- Strings are sequences of Unicode characters, not of UTF-16 code units. A
  character outside the Basic Multilingual Plane counts once, where JavaScript
  counts two code units. This affects the rules' `.` and `{n,}` counts
  (Model.PasswordRule, Model.NameRule, Model.NonemptyRule and their strict forms,
  through Model.HasRun and Model.LeadingRun), Model.Size and Model.First.
- Model.Size: a string result counts its characters, not its UTF-16 code units.
  The `length` property of a plain object is not modelled; such a result counts
  as empty.
- Model.First: on a string result it gives the first character, where
  JavaScript's `s[0]` may give a lone surrogate.
- Model.Upper: `toUpperCase` is modelled for ASCII letters only.
- Rule tests that throw, and custom `test` functions with side effects, are
  not modelled: a rule's test is a total predicate.
