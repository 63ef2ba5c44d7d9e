/**
 * API errors of src/api.error.js: the table of error codes, the `ApiError`
 * constructor with its defaults, the promise-returning factories, and the
 * error handler that turns a rejection reason into a JSON response.
 */
module ApiErrors {
  import opened Js

  /** One entry of `ERROR_CODES`: its key, its HTTP status and its message. */
  datatype CodeEntry = CodeEntry(key: string, code: int, message: string)

  const ServerErrorMessage: string := "An unexpected condition was encountered"

  /** `ERROR_CODES` (src/api.error.js:3-44), in declaration order. */
  const ErrorCodes: seq<CodeEntry> := [
    CodeEntry("noContent", 204, "The server successfully processed the request and is not returning any content"),
    CodeEntry("badRequest", 400, "The server cannot or will not process the request due to an apparent client error"),
    CodeEntry("unauthorized", 401, "Authentication is required and has failed or has not yet been provided"),
    CodeEntry("paymentRequired", 402, "This resource requires payment"),
    CodeEntry("forbidden", 403, "The user might be logged in but does not have the necessary permissions for the resource"),
    CodeEntry("notFound", 404, "The requested resource could not be found"),
    CodeEntry("methodNotAllowed", 405, "A request method is not supported for the requested resource"),
    CodeEntry("conflict", 409, "The request could not be processed because of conflict"),
    CodeEntry("unsupportedMediaType", 415, "The request entity has a media type which the server or resource does not support"),
    CodeEntry("serverError", 500, ServerErrorMessage)
  ]

  /** The first entry of `entries` whose code equals `code`. */
  function FindIn(entries: seq<CodeEntry>, code: Value): (r: Option<CodeEntry>)
    ensures r.Some? ==> r.value in entries && code == Num(r.value.code)
    ensures r.None? <==> forall e :: e in entries ==> code != Num(e.code)
  {
    if entries == [] then None
    else if code == Num(entries[0].code) then Some(entries[0])
    else FindIn(entries[1..], code)
  }

  /** `_.find(ERROR_CODES, {code: code})`. */
  function FindByCode(code: Value): Option<CodeEntry> {
    FindIn(ErrorCodes, code)
  }

  /** An `ApiError` as constructed, and whether the constructor logged it. */
  datatype Built = Built(error: ErrorObject, logged: bool)

  function Finish(message: string, code: Value, stack: string): Built {
    Built(ErrorObject(ApiErrorClass, "ApiError", message, stack, code), code == Num(500))
  }

  /** The `TypeError` of reading `.message` of the `undefined` a failed lookup gives. */
  const MissingEntry: Value := TypeErrorValue("Cannot read properties of undefined (reading 'message')")

  /**
   * `new ApiError(message, code)` (src/api.error.js:95-114); `stack` is the
   * stack the runtime captures for a new error.
   */
  function NewApiError(message: Value, code: Value, stack: string): (r: Completion<Built>)
    ensures r.Normal? ==> r.value.error.cls == ApiErrorClass && r.value.error.name == "ApiError"
    ensures r.Normal? ==> (r.value.logged <==> r.value.error.code == Num(500))
    ensures message.Error? ==>
      r.Normal? && r.value.error.code == Num(500) && r.value.error.message == ServerErrorMessage
      && r.value.error.stack == message.error.stack
    ensures !message.Error? && r.Normal? ==>
      r.value.error.code == (if Truthy(code) then code else Num(400)) && r.value.error.stack == stack
    ensures !message.Error? && Truthy(message) ==> r.Normal? && r.value.error.message == ToJsString(message)
    ensures !message.Error? && !Truthy(message) ==>
      match FindByCode(if Truthy(code) then code else Num(400))
      case None => r == Abrupt(MissingEntry)
      case Some(e) => r.Normal? && r.value.error.message == e.message
  {
    if message.Error? then
      Normal(Built(ErrorObject(ApiErrorClass, "ApiError", ServerErrorMessage, message.error.stack, Num(500)), true))
    else
      var c := if Truthy(code) then code else Num(400);
      if Truthy(message) then Normal(Finish(ToJsString(message), c, stack))
      else
        match FindByCode(c)
        case None => Abrupt(MissingEntry)
        case Some(e) => Normal(Finish(e.message, c, stack))
  }

  /** What `error(msg, code)` returns: a rejected promise and its `.throwable`. */
  datatype Rejection = Rejection(promise: Value, throwable: ErrorObject, logged: bool)

  /** `error(msg, code)` (src/api.error.js:117-122); it throws when the constructor does. */
  function Reject(msg: Value, code: Value, stack: string): (r: Completion<Rejection>)
    ensures r.Normal? <==> NewApiError(msg, code, stack).Normal?
    ensures r.Normal? ==> r.value.promise == Promise(Rejected(Error(r.value.throwable)))
    ensures r.Normal? ==> r.value.throwable == NewApiError(msg, code, stack).value.error
    ensures r.Abrupt? ==> r.thrown == NewApiError(msg, code, stack).thrown
  {
    match NewApiError(msg, code, stack)
    case Abrupt(t) => Abrupt(t)
    case Normal(b) => Normal(Rejection(Promise(Rejected(Error(b.error))), b.error, b.logged))
  }

  /** The helper `error[key]` for an entry of the table (src/api.error.js:123-125). */
  function Helper(entry: CodeEntry, msg: Value, stack: string): (r: Completion<Rejection>)
    requires entry in ErrorCodes
    ensures r.Normal?
    ensures !msg.Error? ==> r.value.throwable.code == Num(entry.code)
    ensures !msg.Error? ==>
      r.value.throwable.message == (if Truthy(msg) then ToJsString(msg) else entry.message)
    ensures msg.Error? ==> r.value.throwable.code == Num(500) && r.value.throwable.message == ServerErrorMessage
  {
    Reject(if Truthy(msg) then msg else Str(entry.message), Num(entry.code), stack)
  }

  /** `error.fatal(msg)` (src/api.error.js:126): always code 500, and always logged. */
  function Fatal(msg: Value, stack: string): (r: Completion<Rejection>)
    ensures r.Normal? && r.value.throwable.code == Num(500) && r.value.logged
    ensures r.value.throwable.message == (if msg.Error? || !Truthy(msg) then ServerErrorMessage else ToJsString(msg))
  {
    LookupFindsEntry(9);
    Reject(msg, Num(500), stack)
  }

  /** `{error: message}`, the body the handler sends. */
  function ErrorBody(message: Value): Value {
    Obj(map["error" := message])
  }

  /** What the error handler did: the status it set (if any), the JSON body it
      sent, whether it logged, and the error object afterwards. */
  datatype Handled = Handled(status: Option<Value>, body: Value, logged: bool, error: Value)

  /**
   * The callback `error.handler(req, res, next)` returns (src/api.error.js:136-154),
   * applied to a rejection reason. Reading `status` of `undefined` or `null` throws.
   */
  function Handle(err: Value): (r: Completion<Handled>)
    ensures r.Abrupt? <==> err.Undefined? || err.Null?
    ensures err.Error? && err.error.cls.ApiErrorClass? ==>
      r == Normal(Handled(Some(err.error.code), ErrorBody(Str(err.error.message)), false, err))
    ensures err.Error? && !err.error.cls.ApiErrorClass? ==>
      r.Normal? && r.value.status == Some(Num(500)) && r.value.logged
      && r.value.body == ErrorBody(Str(ServerErrorMessage))
      && r.value.error == Error(err.error.(message := ServerErrorMessage))
    ensures !err.Error? && r.Normal? ==>
      r.value.error == err && r.value.body == ErrorBody(Property(err, "message").value)
      && (r.value.status.Some? <==> Truthy(Property(err, "status").value))
      && (r.value.status.Some? ==> r.value.status.value == Property(err, "status").value)
      && (r.value.logged <==> r.value.status == Some(Num(500)))
  {
    if err.Error? then
      if err.error.cls.ApiErrorClass? then
        Normal(Handled(Some(err.error.code), ErrorBody(Str(err.error.message)), false, err))
      else
        Normal(Handled(Some(Num(500)), ErrorBody(Str(ServerErrorMessage)), true, Error(err.error.(message := ServerErrorMessage))))
    else
      match Property(err, "status")
      case Abrupt(t) => Abrupt(t)
      case Normal(status) =>
        var message := Property(err, "message").value;
        if Truthy(status) then Normal(Handled(Some(status), ErrorBody(message), status == Num(500), err))
        else Normal(Handled(None, ErrorBody(message), false, err))
  }

  /** The part of an Express response the handler touches. */
  class Response {
    var status: Option<Value>
    var sent: seq<Value>
    var log: seq<Value>

    constructor ()
      ensures status == None && sent == [] && log == []
    {
      status, sent, log := None, [], [];
    }

    /** The error handler run against this response; returns the error object as
        the handler leaves it (its message overwritten for a non-API error). */
    method HandleError(err: Value) returns (c: Completion<Value>)
      modifies this
      ensures Handle(err).Abrupt? ==> c == Abrupt(Handle(err).thrown) && unchanged(this)
      ensures Handle(err).Normal? ==>
        var h := Handle(err).value;
        && c == Normal(h.error)
        && status == (if h.status.Some? then h.status else old(status))
        && sent == old(sent) + [h.body]
        && log == old(log) + (if h.logged then [err] else [])
    {
      var e := err;
      if e.Error? {
        if e.error.cls.ApiErrorClass? {
          status := Some(e.error.code);
        } else {
          status := Some(Num(500));
          log := log + [e];
          e := Error(e.error.(message := ServerErrorMessage));
        }
        sent := sent + [ErrorBody(Str(e.error.message))];
      } else {
        var s := Property(e, "status");
        if s.Abrupt? {
          return Abrupt(s.thrown);
        }
        if Truthy(s.value) {
          status := Some(s.value);
          if s.value == Num(500) {
            log := log + [e];
          }
        }
        sent := sent + [ErrorBody(Property(e, "message").value)];
      }
      c := Normal(e);
    }
  }

  // ---------------------------------------------------------------------------
  // Properties of the table and the constructor

  /** The codes of the table are pairwise distinct. */
  lemma CodesDistinct()
    ensures forall i, j :: 0 <= i < j < |ErrorCodes| ==> ErrorCodes[i].code != ErrorCodes[j].code
  {
  }

  /** Looking an entry's code up finds that entry and no other. */
  lemma {:induction false} LookupFindsEntry(k: nat)
    requires k < |ErrorCodes|
    ensures FindByCode(Num(ErrorCodes[k].code)) == Some(ErrorCodes[k])
  {
    CodesDistinct();
    LookupFindsFirst(ErrorCodes, k);
  }

  lemma {:induction false} LookupFindsFirst(entries: seq<CodeEntry>, k: nat)
    requires k < |entries|
    requires forall i :: 0 <= i < k ==> entries[i].code != entries[k].code
    ensures FindIn(entries, Num(entries[k].code)) == Some(entries[k])
  {
    if k > 0 {
      assert entries[1..][k - 1] == entries[k];
      forall i | 0 <= i < k - 1 ensures entries[1..][i].code != entries[1..][k - 1].code {
        assert entries[1..][i] == entries[i + 1];
      }
      LookupFindsFirst(entries[1..], k - 1);
    }
  }

  /** With neither a code nor a message, an `ApiError` is a 400 Bad Request with the table's text. */
  lemma DefaultIsBadRequest(message: Value, code: Value, stack: string)
    requires !message.Error? && !Truthy(message) && !Truthy(code)
    ensures NewApiError(message, code, stack)
         == Normal(Built(ErrorObject(ApiErrorClass, "ApiError", ErrorCodes[1].message, stack, Num(400)), false))
  {
    LookupFindsEntry(1);
  }

  /** A code outside the table with no message makes the constructor throw, and
      then `error(msg, code)` throws instead of returning a rejected promise. */
  lemma UnknownCodeThrows(message: Value, code: int, stack: string)
    requires !message.Error? && !Truthy(message) && code != 0
    requires forall e :: e in ErrorCodes ==> e.code != code
    ensures Reject(message, Num(code), stack) == Abrupt(MissingEntry)
  {
  }

  /** Every code of the table constructs without a message. */
  lemma TableCodesConstruct(k: nat, message: Value, stack: string)
    requires k < |ErrorCodes| && !message.Error? && !Truthy(message)
    ensures NewApiError(message, Num(ErrorCodes[k].code), stack)
         == Normal(Finish(ErrorCodes[k].message, Num(ErrorCodes[k].code), stack))
  {
    var e := ErrorCodes[k];
    CodesNonzero();
    assert Truthy(Num(e.code));
    LookupFindsEntry(k);
  }

  lemma CodesNonzero()
    ensures forall i :: 0 <= i < |ErrorCodes| ==> ErrorCodes[i].code != 0
  {
  }
}
