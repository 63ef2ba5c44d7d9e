/**
 * The record logic of src/model.js: validation rules, instance
 * construction, `validate`, `update`, `safe`, `params`, `read`, and the
 * post-processors (`required`, `unique`, `of`) attached to query promises.
 *
 * An instance is an object of the generated `Model` class; its own
 * properties are the `fields` map of an `Instance`, and where a pure
 * function speaks of an instance it is the plain object `Obj(fields)`.
 * Database statements are parameters: what a query answered, or how an
 * update settled.
 */
module Model {
  import opened Js
  import ApiErrors

  predicate Nullish(v: Value) {
    v.Undefined? || v.Null?
  }

  // ---------------------------------------------------------------------------
  // Validation rules (src/model.js:162-263)

  /** A rule of `descriptor.properties`: a test of the property's value and the
      message `validate` rejects with. */
  datatype Rule = Rule(test: Value -> bool, message: Value)

  /** `rule(regex, message)`: `regex.test(value)` converts the value to a string
      before matching, whatever it is. */
  function MkRule(regex: string -> bool, message: string): Rule {
    Rule((v: Value) => regex(ToJsString(v)), Str(message))
  }

  /** What `.` refuses to match. */
  predicate LineTerminator(c: char) {
    c == '\n' || c == '\r' || c == '\U{2028}' || c == '\U{2029}'
  }

  /** `/.{n,}/`, unanchored: somewhere `n` characters in a row that are not line
      terminators (`run` counts those already seen). */
  predicate HasRun(s: string, n: nat, run: nat)
    decreases |s|
  {
    run >= n || (s != [] && HasRun(s[1..], n, if LineTerminator(s[0]) then 0 else run + 1))
  }

  /** In a regex literal `\\` is one backslash, so the look-ahead `(?!\\s*$)`
      refuses exactly a backslash followed by nothing but `s`s. */
  predicate BackslashEsses(s: string) {
    |s| >= 1 && s[0] == '\\' && forall j :: 1 <= j < |s| ==> s[j] == 's'
  }

  /** `/^(?!\\s*$).{n,}/`: the look-ahead passes and the first `n` characters are
      not line terminators. */
  predicate LeadingRun(s: string, n: nat) {
    !BackslashEsses(s) && n <= |s| && forall j :: 0 <= j < n ==> !LineTerminator(s[j])
  }

  /** `valid.nonempty`. */
  const NonemptyRule: Rule := MkRule((s: string) => LeadingRun(s, 1), "Must not be empty")

  /** `valid.name`. */
  const NameRule: Rule := MkRule((s: string) => LeadingRun(s, 2), "Must be at least two characters")

  /** `valid.password`. */
  const PasswordRule: Rule := MkRule((s: string) => HasRun(s, 8, 0), "Must be at least 8 characters in length")

  /** `valid.email`; the address pattern itself is a parameter. */
  function EmailRule(matches: string -> bool): Rule {
    MkRule(matches, "Must be a valid email address")
  }

  /** `valid.id`: `shortid.isValid` is applied to the value itself. */
  function IdRule(isValid: Value -> bool): Rule {
    Rule(isValid, Str("Not a valid id"))
  }

  /** `valid.nullable`: passes everything, and has no message. */
  const NullableRule: Rule := Rule((v: Value) => true, Undefined)

  /** A string rule as evidently intended: a value that is not a string fails. */
  function StrictRule(regex: string -> bool, message: string): Rule {
    Rule((v: Value) => v.Str? && regex(v.s), Str(message))
  }

  const StrictNonemptyRule: Rule := StrictRule((s: string) => LeadingRun(s, 1), "Must not be empty")
  const StrictNameRule: Rule := StrictRule((s: string) => LeadingRun(s, 2), "Must be at least two characters")
  const StrictPasswordRule: Rule := StrictRule((s: string) => HasRun(s, 8, 0), "Must be at least 8 characters in length")

  // ---------------------------------------------------------------------------
  // Descriptors and ids

  /** The parts of a model descriptor the record logic reads: the table name,
      the properties with their rules in declaration order, and `protect`. */
  datatype Descriptor = Descriptor(table: string, properties: seq<(string, Rule)>, protect: Value)

  function Keys(props: seq<(string, Rule)>): (ks: seq<string>)
    ensures |ks| == |props| && forall i :: 0 <= i < |props| ==> ks[i] == props[i].0
  {
    if props == [] then [] else [props[0].0] + Keys(props[1..])
  }

  /** `shortid`: whether a value is a valid id, and the ids `generate` hands out. */
  datatype IdSource = IdSource(isValid: Value -> bool, generated: nat -> Value)

  /** The id of `new Model(obj)`: `obj._id` when valid, else generated id number `k`. */
  function IdFor(obj: Value, ids: IdSource, k: nat): Value
    requires !Nullish(obj)
  {
    var given := Property(obj, "_id").value;
    if ids.isValid(given) then given else ids.generated(k)
  }

  /** Assigning `into[key] = from[key]` for each key in turn. */
  function CopyKeys(keys: seq<string>, from: Value, into: map<string, Value>): (m: map<string, Value>)
    requires !Nullish(from)
    ensures m.Keys == into.Keys + set k | k in keys
    ensures forall k :: k in keys ==> m[k] == Property(from, k).value
    ensures forall k :: k in into && k !in keys ==> m[k] == into[k]
  {
    if keys == [] then into
    else
      var last := keys[|keys| - 1];
      assert forall k :: k in keys ==> k in keys[..|keys| - 1] || k == last;
      CopyKeys(keys[..|keys| - 1], from, into)[last := Property(from, last).value]
  }

  /** The own properties of `new Model(obj)` (src/model.js:319-324). */
  function NewFields(d: Descriptor, obj: Value, ids: IdSource, k: nat): Completion<map<string, Value>> {
    if Nullish(obj) then Abrupt(ReadOfNothing(obj, "_id"))
    else Normal(CopyKeys(Keys(d.properties), obj, map["_id" := IdFor(obj, ids, k)]))
  }

  /** `new Model(obj)` as a plain object. */
  function NewModel(d: Descriptor, obj: Value, ids: IdSource, k: nat): Completion<Value> {
    match NewFields(d, obj, ids, k)
    case Abrupt(e) => Abrupt(e)
    case Normal(f) => Normal(Obj(f))
  }

  /** `this[key]` of an object without getters. */
  function Lookup(fields: map<string, Value>, key: string): Value {
    if key in fields then fields[key] else Undefined
  }

  // ---------------------------------------------------------------------------
  // Instances

  /** An instance of the generated class, with its own properties. */
  class Instance {
    const descriptor: Descriptor
    var fields: map<string, Value>

    constructor (descriptor: Descriptor, fields: map<string, Value>)
      ensures this.descriptor == descriptor && this.fields == fields
    {
      this.descriptor := descriptor;
      this.fields := fields;
    }

    /**
     * `update(obj)` (src/model.js:371-380): every key of a truthy plain object is
     * copied onto the instance, descriptor property or not; the result is then
     * validated, and only a valid instance issues the update statement, which is
     * given the instance's `params`. `db` is how that statement settles.
     */
    method Update(obj: Value, ids: IdSource, k: nat, stack: string, db: PromiseState, how: Rejection)
      returns (issued: Option<Params>, outcome: Outcome)
      modifies this
      ensures fields == Merged(old(fields), obj)
      ensures Validation(descriptor, Obj(fields), stack, how).Some? ==>
        issued.None? && outcome == RejectsWith(Validation(descriptor, Obj(fields), stack, how).value)
      ensures Validation(descriptor, Obj(fields), stack, how).None? ==>
        issued == Some(ParamsOf(fields)) && outcome == AfterStatement(db)
    {
      if Truthy(obj) && obj.Obj? {
        var todo := obj.props.Keys;
        ghost var before := fields;
        while todo != {}
          invariant todo <= obj.props.Keys
          invariant fields.Keys == before.Keys + (obj.props.Keys - todo)
          invariant forall key :: key in fields ==>
            fields[key] == if key in obj.props && key !in todo then obj.props[key] else before[key]
          decreases todo
        {
          var key :| key in todo;
          fields := fields[key := obj.props[key]];
          todo := todo - {key};
        }
        assert fields == before + obj.props;
      }
      var verdict := Validate(descriptor, Obj(fields), ids, k, stack, how);
      if verdict.Refused? {
        return None, RejectsWith(verdict.reason);
      }
      issued := Some(ParamsOf(fields));
      outcome := AfterStatement(db);
    }

    /**
     * `safe(override)` (src/model.js:426-442): the descriptor's properties and
     * `_id` that `protect` does not include, with the instance's values. With a
     * truthy `override` and an array `protect`, the overridden names are taken
     * out of `protect`; an array passed as `override` gets the copy of `protect`
     * put at its front.
     */
    method Safe(allowed: OverrideArg) returns (out: map<string, Value>)
      modifies if allowed.ArrayArg? then {allowed.arr} else {}
      ensures allowed.ArrayArg? ==>
        out == SafeView(SafeKeys(descriptor), fields, Protected(descriptor.protect, true, old(allowed.arr.items)))
        && allowed.arr.items
           == (if descriptor.protect.Arr? then [descriptor.protect] + old(allowed.arr.items) else old(allowed.arr.items))
      ensures allowed.Plain? ==>
        out == SafeView(SafeKeys(descriptor), fields,
                        Protected(descriptor.protect, Truthy(allowed.value), Listed(allowed.value)))
    {
      var protect := descriptor.protect;
      if allowed.ArrayArg? {
        if protect.Arr? {
          var given := allowed.arr.items;
          allowed.arr.items := [protect] + given;
          protect := Arr(Without(protect.items, given));
        }
      } else if Truthy(allowed.value) && protect.Arr? {
        protect := Arr(Without(protect.items, Listed(allowed.value)));
      }
      var keys := Keys(descriptor.properties) + ["_id"];
      out := Unprotected(keys, fields, protect);
      SetOfSafeKeys(descriptor, keys);
    }
  }

  /** The `_.forEach` of `safe`: each key that `protect` does not include is
      copied from the instance. */
  method Unprotected(keys: seq<string>, fields: map<string, Value>, protect: Value) returns (out: map<string, Value>)
    ensures out == SafeView(SetOf(keys), fields, protect)
  {
    out := map[];
    var i := 0;
    while i < |keys|
      invariant 0 <= i <= |keys|
      invariant out == SafeView(SetOf(keys[..i]), fields, protect)
    {
      var key := keys[i];
      assert keys[..i + 1] == keys[..i] + [key];
      SetOfSnoc(keys[..i], key);
      SafeViewAdd(SetOf(keys[..i]), key, fields, protect);
      if !Includes(protect, key) {
        out := out[key := Lookup(fields, key)];
      }
      i := i + 1;
    }
    assert keys[..|keys|] == keys;
  }

  lemma SafeViewAdd(keys: set<string>, key: string, fields: map<string, Value>, protect: Value)
    ensures SafeView(keys + {key}, fields, protect)
         == if Includes(protect, key) then SafeView(keys, fields, protect)
            else SafeView(keys, fields, protect)[key := Lookup(fields, key)]
  {
  }

  /** The result of `new Model(obj)` as the class's constructor runs it. */
  datatype Made = Made(instance: Instance) | Threw(error: Value)

  /** `new Model(obj)` (src/model.js:319-324): reading `obj._id` throws on
      `undefined` or `null`; otherwise the id is kept or generated, and exactly the
      descriptor's keys are copied. */
  method New(d: Descriptor, obj: Value, ids: IdSource, k: nat) returns (r: Made)
    ensures r.Threw? <==> Nullish(obj)
    ensures r.Threw? ==> r.error == NewFields(d, obj, ids, k).thrown
    ensures r.Made? ==>
      fresh(r.instance) && r.instance.descriptor == d && r.instance.fields == NewFields(d, obj, ids, k).value
  {
    if Nullish(obj) {
      return Threw(ReadOfNothing(obj, "_id"));
    }
    var start := map["_id" := IdFor(obj, ids, k)];
    var inst := new Instance(d, start);
    var keys := Keys(d.properties);
    var i := 0;
    while i < |keys|
      invariant 0 <= i <= |keys|
      invariant inst.descriptor == d
      invariant inst.fields == CopyKeys(keys[..i], obj, start)
    {
      CopyKeysStep(keys, i, obj, start);
      inst.fields := inst.fields[keys[i] := Property(obj, keys[i]).value];
      i := i + 1;
    }
    assert keys[..|keys|] == keys;
    r := Made(inst);
  }

  // ---------------------------------------------------------------------------
  // validate (src/model.js:409-418)

  /** The position of the first property, in declaration order, whose rule fails. */
  function FirstFailing(props: seq<(string, Rule)>, obj: Value): (r: Option<nat>)
    requires !Nullish(obj)
    ensures r.Some? ==> r.value < |props| && !props[r.value].1.test(Property(obj, props[r.value].0).value)
    ensures r.Some? ==> forall i :: 0 <= i < r.value ==> props[i].1.test(Property(obj, props[i].0).value)
    ensures r.None? <==> forall i :: 0 <= i < |props| ==> props[i].1.test(Property(obj, props[i].0).value)
  {
    if props == [] then None
    else
      var earlier := FirstFailing(props[..|props| - 1], obj);
      if earlier.Some? then Some(earlier.value)
      else if !props[|props| - 1].1.test(Property(obj, props[|props| - 1].0).value) then Some(|props| - 1)
      else None
  }

  /** What `validate` rejects with, as written: `reject(apiError(message))` passes
      the promise `apiError` returns, and `reject` does not adopt it. */
  function ReasonAsWritten(message: Value, stack: string): Value {
    match ApiErrors.Reject(message, Undefined, stack)
    case Normal(rejection) => rejection.promise
    case Abrupt(e) => e
  }

  /** What `validate` evidently means to reject with: the `ApiError` itself. */
  function Reason(message: Value, stack: string): Value {
    match ApiErrors.Reject(message, Undefined, stack)
    case Normal(rejection) => Error(rejection.throwable)
    case Abrupt(e) => e
  }

  /** Which reason a failing rule rejects `validate` with: the promise, as the code
      is written, or the `ApiError` it evidently intends. */
  datatype Rejection = AsWritten | Corrected

  function RuleReason(how: Rejection, message: Value, stack: string): Value {
    if how == AsWritten then ReasonAsWritten(message, stack) else Reason(message, stack)
  }

  /** The rejection reason of `validate(obj)`, or `None` when it resolves. Reading
      a property of `undefined` or `null` throws in the promise executor. */
  function Validation(d: Descriptor, obj: Value, stack: string, how: Rejection): Option<Value> {
    if Nullish(obj) then Some(ReadOfNothing(obj, if d.properties == [] then "_id" else d.properties[0].0))
    else FailureReason(d.properties, obj, stack, how)
  }

  /** How `validate` settles: with a new instance built from `obj`, or a reason. */
  datatype Verdict = Accepted(instance: Instance) | Refused(reason: Value)

  /** `validate(obj)`: every rule is tested in declaration order; the first
      `reject` settles the promise, and later ones and the final `resolve` are
      ignored. */
  method Validate(d: Descriptor, obj: Value, ids: IdSource, k: nat, stack: string, how: Rejection)
    returns (v: Verdict)
    ensures v.Refused? <==> Validation(d, obj, stack, how).Some?
    ensures v.Refused? ==> v.reason == Validation(d, obj, stack, how).value
    ensures v.Accepted? ==>
      fresh(v.instance) && v.instance.descriptor == d && v.instance.fields == NewFields(d, obj, ids, k).value
  {
    if Nullish(obj) {
      return Refused(ReadOfNothing(obj, if |d.properties| == 0 then "_id" else d.properties[0].0));
    }
    var reason: Option<Value> := None;
    var i := 0;
    while i < |d.properties|
      invariant 0 <= i <= |d.properties|
      invariant reason == FailureReason(d.properties[..i], obj, stack, how)
    {
      FailureReasonStep(d.properties, i, obj, stack, how);
      if reason.None? && !d.properties[i].1.test(Property(obj, d.properties[i].0).value) {
        reason := Some(RuleReason(how, d.properties[i].1.message, stack));
      }
      i := i + 1;
    }
    assert d.properties[..i] == d.properties;
    if reason.Some? {
      return Refused(reason.value);
    }
    var made := New(d, obj, ids, k);
    v := Accepted(made.instance);
  }

  /** The reason the first failing rule of `props` gives, if one fails. */
  function FailureReason(props: seq<(string, Rule)>, obj: Value, stack: string, how: Rejection): Option<Value>
    requires !Nullish(obj)
  {
    match FirstFailing(props, obj)
    case Some(j) => Some(RuleReason(how, props[j].1.message, stack))
    case None => None
  }

  /** One more rule: the reason stays, or the new rule's failure gives it. */
  lemma FailureReasonStep(props: seq<(string, Rule)>, i: nat, obj: Value, stack: string, how: Rejection)
    requires !Nullish(obj) && i < |props|
    ensures FailureReason(props[..i + 1], obj, stack, how)
         == if FailureReason(props[..i], obj, stack, how).Some? then FailureReason(props[..i], obj, stack, how)
            else if !props[i].1.test(Property(obj, props[i].0).value) then Some(RuleReason(how, props[i].1.message, stack))
            else None
  {
    assert props[..i + 1][..i] == props[..i];
  }

  // ---------------------------------------------------------------------------
  // update and params

  /** How a promise that resolves to the instance itself settles. */
  datatype Outcome = ResolvesWithThis | RejectsWith(reason: Value) | Waits

  /** `.then(() => this)` after a statement that settles as `db`. */
  function AfterStatement(db: PromiseState): Outcome {
    match db
    case Fulfilled(_) => ResolvesWithThis
    case Rejected(e) => RejectsWith(e)
    case Pending => Waits
  }

  /** The instance's properties after `update(obj)` copied the keys of `obj`. */
  function Merged(fields: map<string, Value>, obj: Value): map<string, Value> {
    if Truthy(obj) && obj.Obj? then fields + obj.props else fields
  }

  /** What `JSON.parse(JSON.stringify(v))` gives for a member of an array or an
      object: `undefined` becomes `null` in an array and is dropped from an object;
      a promise or a plain error has no own enumerable property and becomes `{}`;
      an `ApiError` keeps the `code` and `name` its constructor assigns. */
  function JsonCopy(v: Value): Value
    decreases v
  {
    match v
    case Undefined => Null
    case Arr(items) => Arr(seq(|items|, i requires 0 <= i < |items| => JsonCopy(items[i])))
    case Obj(props) => Obj(map key | key in props && !props[key].Undefined? :: JsonCopy(props[key]))
    case Promise(_) => Obj(map[])
    case Error(e) =>
      if e.cls != ApiErrorClass then Obj(map[])
      else Obj(map["name" := Str("ApiError")] + (if e.code.Undefined? then map[] else map["code" := JsonCopy(e.code)]))
    case _ => v
  }

  /** A value JSON carries unchanged: no `undefined`, promise or error anywhere in it. */
  predicate JsonPlain(v: Value)
    decreases v
  {
    match v
    case Undefined => false
    case Promise(_) => false
    case Error(_) => false
    case Arr(items) => forall i :: 0 <= i < |items| ==> JsonPlain(items[i])
    case Obj(props) => forall key :: key in props ==> JsonPlain(props[key])
    case _ => true
  }

  /** The two statement parameters: the id and the serialised rest of the object. */
  datatype Params = Params(id: Value, data: map<string, Value>)

  /** `params(obj)` (src/model.js:276-281): the id, and `JSON.stringify` of a deep
      copy without `_id`, as the database parses it back. */
  function ParamsOf(fields: map<string, Value>): (p: Params)
    ensures p.id == Lookup(fields, "_id")
    ensures p.data.Keys == set key | key in fields && key != "_id" && !fields[key].Undefined?
    ensures forall key :: key in p.data ==> p.data[key] == JsonCopy(fields[key])
  {
    Params(Lookup(fields, "_id"), map key | key in fields && key != "_id" && !fields[key].Undefined? :: JsonCopy(fields[key]))
  }

  /** `data || jsonb_build_object('_id', id)`: a stored row read back. */
  function Reassembled(p: Params): map<string, Value> {
    p.data["_id" := p.id]
  }

  // ---------------------------------------------------------------------------
  // safe (src/model.js:426-442)

  /** The argument of `safe(override)`: a plain value, or an array the caller holds. */
  datatype OverrideArg = Plain(value: Value) | ArrayArg(arr: JsArray)

  /** A JavaScript array the caller keeps a reference to. */
  class JsArray {
    var items: seq<Value>

    constructor (items: seq<Value>)
      ensures this.items == items
    {
      this.items := items;
    }
  }

  /** `_.isArray(override) ? override : [override]` for a plain value. */
  function Listed(v: Value): seq<Value> {
    if v.Arr? then v.items else [v]
  }

  /** `_.without(items, ...remove)`: the members not among `remove`, in order. */
  function Without(items: seq<Value>, remove: seq<Value>): (r: seq<Value>)
    ensures |r| <= |items|
    ensures forall x :: x in r <==> x in items && x !in remove
  {
    if items == [] then []
    else (if items[0] in remove then [] else [items[0]]) + Without(items[1..], remove)
  }

  /** `protect` after the override step. */
  function Protected(protect: Value, overriding: bool, overrides: seq<Value>): Value {
    if overriding && protect.Arr? then Arr(Without(protect.items, overrides)) else protect
  }

  /** `sub` occurs in `s` at some position. */
  predicate Occurs(sub: string, s: string)
    decreases |s|
  {
    sub <= s || (s != [] && Occurs(sub, s[1..]))
  }

  /** `_.includes(protect, key)`: membership for an array, a substring search for a
      string, a search of the values of a plain object, and false otherwise. */
  predicate Includes(protect: Value, key: string) {
    match protect
    case Arr(items) => Str(key) in items
    case Str(s) => Occurs(key, s)
    case Obj(props) => Str(key) in props.Values
    case _ => false
  }

  function SetOf(s: seq<string>): set<string> {
    set x | x in s
  }

  lemma SetOfSnoc(s: seq<string>, x: string)
    ensures SetOf(s + [x]) == SetOf(s) + {x}
  {
    assert forall y :: y in s + [x] <==> y in s || y == x;
  }

  lemma SetOfSafeKeys(d: Descriptor, keys: seq<string>)
    requires keys == Keys(d.properties) + ["_id"]
    ensures SetOf(keys) == SafeKeys(d)
  {
    assert forall x :: x in keys <==> x in Keys(d.properties) || x == "_id";
  }

  lemma CopyKeysStep(keys: seq<string>, i: nat, from: Value, into: map<string, Value>)
    requires i < |keys| && !Nullish(from)
    ensures CopyKeys(keys[..i + 1], from, into) == CopyKeys(keys[..i], from, into)[keys[i] := Property(from, keys[i]).value]
  {
    assert keys[..i + 1][..i] == keys[..i];
  }

  /** The keys `safe` considers: the descriptor's properties and `_id`. */
  function SafeKeys(d: Descriptor): set<string> {
    (set k | k in Keys(d.properties)) + {"_id"}
  }

  /** The object `safe` returns for the given keys, instance properties and `protect`. */
  function SafeView(keys: set<string>, fields: map<string, Value>, protect: Value): map<string, Value> {
    map k | k in keys && !Includes(protect, k) :: Lookup(fields, k)
  }

  // ---------------------------------------------------------------------------
  // read and the query post-processors

  /** A row of a query result. */
  datatype Row = Row(data: Value)

  /** How a prepared statement answered. */
  datatype Query = Answered(rows: seq<Row>) | Failed(error: Value) | Unanswered

  /** The state of a promise that ends in a call's completion. */
  function Settle(c: Completion<Value>): PromiseState {
    match c
    case Normal(v) => Adopt(v)
    case Abrupt(e) => Rejected(e)
  }

  /** `read(id)` (src/model.js:356-363), given how the read statement answered. */
  function Read(d: Descriptor, q: Query, ids: IdSource, k: nat, stack: string): (p: PromiseState)
    ensures p.Fulfilled? ==> q.Answered? && |q.rows| == 1
    ensures q.Answered? && |q.rows| != 1 ==>
      p == Rejected(PlainErrorValue("Unexpected row count: " + Decimal(|q.rows|), stack))
    ensures q.Answered? && |q.rows| == 1 && !Nullish(q.rows[0].data) ==>
      p == Fulfilled(Obj(NewFields(d, q.rows[0].data, ids, k).value))
  {
    match q
    case Failed(e) => Rejected(e)
    case Unanswered => Pending
    case Answered(rows) =>
      if |rows| != 1 then Rejected(PlainErrorValue("Unexpected row count: " + Decimal(|rows|), stack))
      else Settle(NewModel(d, rows[0].data, ids, k))
  }

  /** `Model[key](...)` (src/model.js:530-533): the rows' `data`, in order. */
  function RowData(q: Query): (p: PromiseState)
    ensures p.Fulfilled? <==> q.Answered?
    ensures p.Fulfilled? ==>
      p.value.Arr? && |p.value.items| == |q.rows| && forall i :: 0 <= i < |q.rows| ==> p.value.items[i] == q.rows[i].data
  {
    match q
    case Failed(e) => Rejected(e)
    case Unanswered => Pending
    case Answered(rows) => Fulfilled(Arr(seq(|rows|, (i: int) requires 0 <= i < |rows| => rows[i].data)))
  }

  /** `result.length` where it matters: the number of elements of an array or of
      characters of a string; anything else has none, which both `!length` and
      `length > 1` treat as zero. */
  function Size(v: Value): nat {
    match v
    case Arr(items) => |items|
    case Str(s) => |s|
    case _ => 0
  }

  /** `result[0]`. */
  function First(v: Value): Value
    requires !Nullish(v)
  {
    match v
    case Arr(items) => if items == [] then Undefined else items[0]
    case Str(s) => if s == [] then Undefined else Str([s[0]])
    case Obj(props) => Lookup(props, "0")
    case _ => Undefined
  }

  /** `apiError.notFound()`, the default error of `required`. */
  function NotFound(msg: Value, stack: string): Value {
    ApiErrors.Helper(ApiErrors.ErrorCodes[5], msg, stack).value.promise
  }

  /** `apiError.serverError(msg)`. */
  function ServerError(msg: Value, stack: string): Value {
    ApiErrors.Helper(ApiErrors.ErrorCodes[9], msg, stack).value.promise
  }

  /** The ApiError with the given code and message. */
  predicate IsApiError(reason: Value, code: int, message: string) {
    reason.Error? && reason.error.cls.ApiErrorClass? && reason.error.code == Num(code)
    && reason.error.message == message
  }

  /** `required(err)` (src/model.js:541-559): a missing or empty result rejects with
      `err` (an `Error`), adopts `err` (a promise), or rejects with `notFound(err)`;
      by default with 404 Not Found. Anything else passes through unchanged. */
  function Required(err: Value, p: PromiseState, stack: string): (r: PromiseState)
    ensures !p.Fulfilled? ==> r == p
    ensures p.Fulfilled? && Size(p.value) >= 1 ==> r == p
    ensures p.Fulfilled? && Size(p.value) == 0 && !Truthy(err) ==>
      r.Rejected? && IsApiError(r.reason, 404, ApiErrors.ErrorCodes[5].message)
    ensures p.Fulfilled? && Size(p.value) == 0 && err.Error? ==> r == Rejected(err)
  {
    match p
    case Fulfilled(result) =>
      if !Truthy(result) || Size(result) < 1 then
        var e := if Truthy(err) then err else NotFound(Undefined, stack);
        if e.Error? then Rejected(e)
        else if e.Promise? then e.state
        else Adopt(NotFound(e, stack))
      else p
    case _ => p
  }

  /** `unique(err)` (src/model.js:483-499) inside the query called `name`. */
  function Unique(err: Value, name: string, p: PromiseState, stack: string): (r: PromiseState)
    ensures !p.Fulfilled? ==> r == p
    ensures p.Fulfilled? && err.Null? ==> r == Fulfilled(Null)
    ensures p.Fulfilled? && !err.Null? && !Nullish(p.value) && Size(p.value) <= 1 ==> r == Fulfilled(First(p.value))
    ensures p.Fulfilled? && !Truthy(err) && !err.Null? && Size(p.value) > 1 ==>
      r.Rejected? && IsApiError(r.reason, 500, ApiErrors.ServerErrorMessage)
    ensures p.Fulfilled? && err.Error? && Size(p.value) > 1 ==> r == Rejected(err)
  {
    match p
    case Fulfilled(result) =>
      if err.Null? then Fulfilled(Null)
      else if Nullish(result) then Rejected(ReadOfNothing(result, "length"))
      else if Size(result) > 1 then
        var e := if Truthy(err) then err
                 else ServerError(PlainErrorValue("Non-unique result in query " + name, stack), stack);
        if e.Error? then Rejected(e)
        else if e.Promise? then e.state
        else Adopt(ServerError(PlainErrorValue(ToJsString(e), stack), stack))
      else Fulfilled(First(result))
    case _ => p
  }

  /** The class `of(T)` builds: the generated class (`T` falsy) or another constructor. */
  datatype Target = ThisModel | Other(make: Value -> Completion<Value>)

  function Construct(d: Descriptor, t: Target, v: Value, ids: IdSource, k: nat): Completion<Value> {
    match t
    case ThisModel => NewModel(d, v, ids, k)
    case Other(make) => make(v)
  }

  /** `of(T)` after `unique` (src/model.js:507-510): `new T(result)`. */
  function OfOne(d: Descriptor, t: Target, p: PromiseState, ids: IdSource): (r: PromiseState)
    ensures !p.Fulfilled? ==> r == p
    ensures p.Fulfilled? && t.ThisModel? && !Nullish(p.value) ==> r == Fulfilled(Obj(NewFields(d, p.value, ids, 0).value))
  {
    match p
    case Fulfilled(v) => Settle(Construct(d, t, v, ids, 0))
    case _ => p
  }

  /** `_.map(rows, row => new T(row))`, row `i` built as `build(row, base + i)`
      (the generated id number it may use); the first constructor that throws
      rejects. */
  function MapRows(build: (Value, nat) -> Completion<Value>, rows: seq<Value>, base: nat): (r: Completion<seq<Value>>)
    ensures r.Normal? ==>
      |r.value| == |rows| && forall i :: 0 <= i < |rows| ==> build(rows[i], base + i) == Normal(r.value[i])
    ensures r.Abrupt? <==> exists i :: 0 <= i < |rows| && build(rows[i], base + i).Abrupt?
  {
    if rows == [] then Normal([])
    else
      match build(rows[0], base)
      case Abrupt(e) =>
        assert build(rows[0], base + 0).Abrupt?;
        Abrupt(e)
      case Normal(head) =>
        var rest := rows[1..];
        assert forall i :: 0 < i < |rows| ==> rest[i - 1] == rows[i] && base + 1 + (i - 1) == base + i;
        match MapRows(build, rest, base + 1)
        case Abrupt(e) =>
          var i :| 0 <= i < |rest| && build(rest[i], base + 1 + i).Abrupt?;
          assert build(rows[i + 1], base + (i + 1)).Abrupt?;
          Abrupt(e)
        case Normal(tail) =>
          Normal([head] + tail)
  }

  /** The error a failed `_.map` rejects with is that of the first row whose
      constructor throws. */
  lemma {:induction false} MapRowsFirstThrow(build: (Value, nat) -> Completion<Value>, rows: seq<Value>, base: nat)
    requires MapRows(build, rows, base).Abrupt?
    ensures exists i :: 0 <= i < |rows| && build(rows[i], base + i) == Abrupt(MapRows(build, rows, base).thrown)
                        && forall j :: 0 <= j < i ==> build(rows[j], base + j).Normal?
  {
    var e := MapRows(build, rows, base).thrown;
    if build(rows[0], base).Abrupt? {
      assert build(rows[0], base + 0) == Abrupt(e);
    } else {
      MapRowsFirstThrow(build, rows[1..], base + 1);
      var i :| 0 <= i < |rows[1..]| && build(rows[1..][i], base + 1 + i) == Abrupt(e)
               && forall j :: 0 <= j < i ==> build(rows[1..][j], base + 1 + j).Normal?;
      assert rows[1..][i] == rows[i + 1] && base + 1 + i == base + (i + 1);
      forall j | 0 <= j < i + 1 ensures build(rows[j], base + j).Normal? {
        if j > 0 {
          assert rows[1..][j - 1] == rows[j] && base + 1 + (j - 1) == base + j;
        } else {
          assert base + 0 == base;
        }
      }
    }
  }

  /** `of(T)` on a list (src/model.js:515-520); `_.map` of `undefined` or `null` is empty. */
  function OfList(d: Descriptor, t: Target, p: PromiseState, ids: IdSource): (r: PromiseState)
    ensures !p.Fulfilled? ==> r == p
    ensures p.Fulfilled? && Nullish(p.value) ==> r == Fulfilled(Arr([]))
    ensures p.Fulfilled? && p.value.Arr? && r.Fulfilled? ==> r.value.Arr? && |r.value.items| == |p.value.items|
    ensures p.Fulfilled? && p.value.Arr? && r.Fulfilled? ==>
      forall i :: 0 <= i < |p.value.items| ==> Construct(d, t, p.value.items[i], ids, i) == Normal(r.value.items[i])
    ensures p.Fulfilled? && p.value.Arr? ==>
      (r.Rejected? <==> exists i :: 0 <= i < |p.value.items| && Construct(d, t, p.value.items[i], ids, i).Abrupt?)
    ensures p.Fulfilled? && p.value.Arr? && r.Rejected? ==>
      exists i :: 0 <= i < |p.value.items| && Construct(d, t, p.value.items[i], ids, i) == Abrupt(r.reason)
                  && forall j :: 0 <= j < i ==> Construct(d, t, p.value.items[j], ids, j).Normal?
  {
    match p
    case Fulfilled(v) =>
      if v.Arr? then
        var build := (row: Value, k: nat) => Construct(d, t, row, ids, k);
        var rows := MapRows(build, v.items, 0);
        if rows.Abrupt? then
          MapRowsFirstThrow(build, v.items, 0);
          Rejected(rows.thrown)
        else Fulfilled(Arr(rows.value))
      else Fulfilled(Arr([]))
    case _ => p
  }

  /** ASCII `toUpperCase`. */
  function Upper(s: string): (u: string)
    ensures |u| == |s|
    ensures forall i :: 0 <= i < |s| ==> !('a' <= u[i] <= 'z')
  {
    if s == [] then []
    else [if 'a' <= s[0] <= 'z' then (s[0] as int - 32) as char else s[0]] + Upper(s[1..])
  }

  /** The name a query's prepared statement gets (src/model.js:471): `TABLE_KEY`. */
  function QueryName(table: string, key: string): (name: string)
    ensures |name| == |table| + 1 + |key| && name[|table|] == '_'
    ensures name[..|table|] == Upper(table) && name[|table| + 1..] == Upper(key)
  {
    Upper(table) + "_" + Upper(key)
  }

  /** Upper-casing twice changes nothing more. */
  lemma {:induction false} UpperIdempotent(s: string)
    ensures Upper(Upper(s)) == Upper(s)
  {
    if s != [] {
      UpperIdempotent(s[1..]);
      assert Upper(s)[1..] == Upper(s[1..]);
    }
  }

  /** Two keys of one table share a statement name exactly when they agree up to
      letter case; in particular a key and its upper-cased form share one. */
  lemma QueryNameCollision(table: string, k1: string, k2: string)
    ensures QueryName(table, k1) == QueryName(table, k2) <==> Upper(k1) == Upper(k2)
    ensures QueryName(table, Upper(k1)) == QueryName(table, k1)
  {
    if QueryName(table, k1) == QueryName(table, k2) {
      assert QueryName(table, k1)[|table| + 1..] == QueryName(table, k2)[|table| + 1..];
    }
    UpperIdempotent(k1);
  }

  // ---------------------------------------------------------------------------
  // Properties

  /** The constructor: the keys are exactly `_id` and the descriptor's properties
      (no other key of `obj` survives); each property takes `obj`'s value; `_id`,
      unless it is itself a property, is `obj._id` when valid and a generated id
      otherwise. */
  lemma ConstructorFields(d: Descriptor, obj: Value, ids: IdSource, k: nat)
    ensures NewFields(d, obj, ids, k).Normal? <==> !Nullish(obj)
    ensures !Nullish(obj) ==>
      var f := NewFields(d, obj, ids, k).value;
      && f.Keys == {"_id"} + (set key | key in Keys(d.properties))
      && (forall key :: key in Keys(d.properties) ==> f[key] == Property(obj, key).value)
      && ("_id" !in Keys(d.properties) ==>
            f["_id"] == if ids.isValid(Property(obj, "_id").value) then Property(obj, "_id").value else ids.generated(k))
  {
  }

  /** `validate` resolves exactly when every rule passes. */
  lemma ValidateAcceptsIffAllPass(d: Descriptor, obj: Value, stack: string, how: Rejection)
    requires !Nullish(obj)
    ensures Validation(d, obj, stack, how).None?
        <==> forall i :: 0 <= i < |d.properties| ==> d.properties[i].1.test(Property(obj, d.properties[i].0).value)
  {
  }

  /** The first failing rule, in declaration order, decides the rejection. */
  lemma {:induction false} FirstFailureWins(d: Descriptor, obj: Value, stack: string, k: nat, how: Rejection)
    requires !Nullish(obj) && k < |d.properties|
    requires !d.properties[k].1.test(Property(obj, d.properties[k].0).value)
    requires forall i :: 0 <= i < k ==> d.properties[i].1.test(Property(obj, d.properties[i].0).value)
    ensures Validation(d, obj, stack, how) == Some(RuleReason(how, d.properties[k].1.message, stack))
  {
    FirstFailingIs(d.properties, obj, k);
  }

  /** As written, a failed `validate` reaches the error handler as a promise: the
      response gets no status and the body `{error: undefined}`. */
  lemma ValidationAsWrittenLosesStatus(d: Descriptor, obj: Value, stack: string, k: nat)
    requires !Nullish(obj) && k < |d.properties|
    requires !d.properties[k].1.test(Property(obj, d.properties[k].0).value)
    requires forall i :: 0 <= i < k ==> d.properties[i].1.test(Property(obj, d.properties[i].0).value)
    requires !d.properties[k].1.message.Error?
    ensures var r := ReasonAsWritten(d.properties[k].1.message, stack);
      && Validation(d, obj, stack, AsWritten) == Some(r)
      && ApiErrors.Handle(r) == Normal(ApiErrors.Handled(None, ApiErrors.ErrorBody(Undefined), false, r))
  {
    FirstFailureWins(d, obj, stack, k, AsWritten);
    ReasonAsWrittenLosesStatus(d.properties[k].1.message, stack);
  }

  lemma {:induction false} FirstFailingIs(props: seq<(string, Rule)>, obj: Value, k: nat)
    requires !Nullish(obj) && k < |props|
    requires !props[k].1.test(Property(obj, props[k].0).value)
    requires forall i :: 0 <= i < k ==> props[i].1.test(Property(obj, props[i].0).value)
    ensures FirstFailing(props, obj) == Some(k)
  {
    var prefix := props[..|props| - 1];
    if k == |props| - 1 {
      assert forall i :: 0 <= i < |prefix| ==> prefix[i] == props[i];
    } else {
      assert prefix[k] == props[k];
      assert forall i :: 0 <= i < k ==> prefix[i] == props[i];
      FirstFailingIs(prefix, obj, k);
    }
  }

  /** `apiError(message)` never throws here: without a code it is a 400. */
  lemma ReasonIsBadRequest(message: Value, stack: string)
    requires !message.Error?
    ensures IsApiError(Reason(message, stack), 400,
                       if Truthy(message) then ToJsString(message) else ApiErrors.ErrorCodes[1].message)
  {
    if !Truthy(message) {
      ApiErrors.DefaultIsBadRequest(message, Undefined, stack);
    }
  }

  /** As written, the error handler receives a promise: it sets no status and
      sends `{error: undefined}`. */
  lemma ReasonAsWrittenLosesStatus(message: Value, stack: string)
    requires !message.Error?
    ensures ReasonAsWritten(message, stack).Promise?
    ensures ApiErrors.Handle(ReasonAsWritten(message, stack))
         == Normal(ApiErrors.Handled(None, ApiErrors.ErrorBody(Undefined), false, ReasonAsWritten(message, stack)))
  {
    if !Truthy(message) {
      ApiErrors.DefaultIsBadRequest(message, Undefined, stack);
    }
  }

  /** With the corrected reason the handler answers 400 with the rule's message. */
  lemma ReasonAnswersBadRequest(message: Value, stack: string)
    requires !message.Error?
    ensures var text := if Truthy(message) then ToJsString(message) else ApiErrors.ErrorCodes[1].message;
      ApiErrors.Handle(Reason(message, stack))
      == Normal(ApiErrors.Handled(Some(Num(400)), ApiErrors.ErrorBody(Str(text)), false, Reason(message, stack)))
  {
    ReasonIsBadRequest(message, stack);
  }

  lemma {:induction false} HasRunOfPlain(s: string, n: nat, run: nat)
    requires run + |s| >= n
    requires forall j :: 0 <= j < |s| ==> !LineTerminator(s[j])
    ensures HasRun(s, n, run)
    decreases |s|
  {
    if run < n {
      HasRunOfPlain(s[1..], n, run + 1);
    }
  }

  /** As written, `password`, `name` and `nonempty` accept a missing value:
      `regex.test(undefined)` tests the string "undefined". */
  lemma StringRulesAcceptMissing()
    ensures PasswordRule.test(Undefined)
    ensures NameRule.test(Undefined)
    ensures NonemptyRule.test(Undefined)
  {
    assert ToJsString(Undefined) == "undefined";
    HasRunOfPlain("undefined", 8, 0);
    assert PasswordRule.test(Undefined) == HasRun("undefined", 8, 0);
    assert NameRule.test(Undefined) == LeadingRun("undefined", 2);
    assert NonemptyRule.test(Undefined) == LeadingRun("undefined", 1);
  }

  /** The corrected rules refuse anything that is not a string, and agree with the
      rules as written on strings. */
  lemma StrictRulesRefuseNonStrings(v: Value)
    ensures !v.Str? ==> !StrictPasswordRule.test(v) && !StrictNameRule.test(v) && !StrictNonemptyRule.test(v)
    ensures v.Str? ==>
      && StrictPasswordRule.test(v) == PasswordRule.test(v)
      && StrictNameRule.test(v) == NameRule.test(v)
      && StrictNonemptyRule.test(v) == NonemptyRule.test(v)
  {
    if v.Str? {
      assert ToJsString(v) == v.s;
    }
  }

  /** The look-ahead does not refuse blank strings: three spaces pass `name`. */
  lemma NameAcceptsBlank()
    ensures NameRule.test(Str("   "))
    ensures !NameRule.test(Str("\\ss"))
  {
    assert ToJsString(Str("   ")) == "   ";
    assert ToJsString(Str("\\ss")) == "\\ss";
    assert NameRule.test(Str("   ")) == LeadingRun("   ", 2);
    assert NameRule.test(Str("\\ss")) == LeadingRun("\\ss", 2);
    assert BackslashEsses("\\ss");
  }

  /** JSON carries a plain value unchanged. */
  lemma {:induction false} JsonCopyOfPlain(v: Value)
    requires JsonPlain(v)
    ensures JsonCopy(v) == v
    decreases v
  {
    match v
    case Arr(items) =>
      forall i | 0 <= i < |items| ensures JsonCopy(items[i]) == items[i] {
        JsonCopyOfPlain(items[i]);
      }
    case Obj(props) =>
      forall key | key in props ensures JsonCopy(props[key]) == props[key] {
        JsonCopyOfPlain(props[key]);
      }
    case _ =>
  }

  /** A stored row read back is the object again, when every value other than
      `_id` is one JSON carries unchanged. */
  lemma ParamsRoundTrip(fields: map<string, Value>)
    requires "_id" in fields
    requires forall key :: key in fields && key != "_id" ==> JsonPlain(fields[key])
    ensures Reassembled(ParamsOf(fields)) == fields
  {
    forall key | key in fields && key != "_id" ensures JsonCopy(fields[key]) == fields[key] {
      JsonCopyOfPlain(fields[key]);
    }
  }

  /** A property the constructor set to `undefined` is not stored: the row read
      back has no such key. */
  lemma ParamsDropsUndefined(fields: map<string, Value>, key: string)
    requires key in fields && key != "_id" && fields[key].Undefined?
    ensures key !in Reassembled(ParamsOf(fields))
  {
  }

  /** `update` copies every key of a plain object, descriptor property or not, and
      keeps the others. */
  lemma MergedKeys(fields: map<string, Value>, props: map<string, Value>)
    ensures var m := Merged(fields, Obj(props));
            m.Keys == fields.Keys + props.Keys
            && (forall key :: key in props ==> m[key] == props[key])
            && (forall key :: key in fields && key !in props ==> m[key] == fields[key])
  {
  }

  /** An array `protect` hides each listed property, unless the override names it. */
  lemma SafeHidesProtected(d: Descriptor, fields: map<string, Value>, overriding: bool, overrides: seq<Value>, key: string)
    requires d.protect.Arr? && Str(key) in d.protect.items
    requires !overriding || Str(key) !in overrides
    ensures key !in SafeView(SafeKeys(d), fields, Protected(d.protect, overriding, overrides))
  {
  }

  /** A name given to `override` is output again, with the instance's value. */
  lemma SafeOverrideReallows(d: Descriptor, fields: map<string, Value>, overrides: seq<Value>, key: string)
    requires d.protect.Arr? && Str(key) in overrides
    requires key in SafeKeys(d)
    ensures var out := SafeView(SafeKeys(d), fields, Protected(d.protect, true, overrides));
            key in out && out[key] == Lookup(fields, key)
  {
  }

  /** When `protect` is neither an array, a string nor an object, nothing is hidden. */
  lemma SafeWithoutProtect(d: Descriptor, fields: map<string, Value>, overriding: bool, overrides: seq<Value>)
    requires !d.protect.Arr? && !d.protect.Str? && !d.protect.Obj?
    ensures var out := SafeView(SafeKeys(d), fields, Protected(d.protect, overriding, overrides));
            out.Keys == SafeKeys(d) && forall key :: key in out ==> out[key] == Lookup(fields, key)
  {
  }

  /** A string `protect` is searched as text: `"password"` hides a property `pass`. */
  lemma SafeStringProtectIsSubstring(d: Descriptor, fields: map<string, Value>)
    requires d.protect == Str("password") && "pass" in Keys(d.properties)
    ensures "pass" !in SafeView(SafeKeys(d), fields, Protected(d.protect, false, []))
  {
    assert "pass" <= "password";
  }

  /** `required().unique()` on a single row gives that row; on none, 404. */
  lemma RequiredUniqueChain(q: Query, name: string, stack: string)
    ensures q.Answered? && |q.rows| == 1 ==>
      Unique(Undefined, name, Required(Undefined, RowData(q), stack), stack) == Fulfilled(q.rows[0].data)
    ensures q.Answered? && |q.rows| == 0 ==>
      var r := Unique(Undefined, name, Required(Undefined, RowData(q), stack), stack);
      r.Rejected? && IsApiError(r.reason, 404, ApiErrors.ErrorCodes[5].message)
  {
  }
}
