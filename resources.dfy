/** What the request parser consumes from outside: the resource schema (an
    abstract value standing for the resource classes and their registry), the
    configuration switches, the error kinds it raises and the warnings it records. */
module Resources {
  import opened Values
  import opened Formatter

  /** The errors the parser raises. The JSONAPI exception classes keep their names;
      `RubyError` stands for a Ruby runtime exception (NoMethodError on nil,
      TypeError from indexing a string with a symbol, ...) that the source does not
      guard against. */
  datatype Error =
    | ParameterMissing(param: string)
    | InvalidResource(resource: Json)
    | InvalidField(resourceType: string, fieldValue: Json)
    | InvalidFieldFormat
    | InvalidInclude(resourceType: string, relationship: string)
    | InvalidFiltersSyntax(filters: Json)
    | FilterNotAllowed(filter: Option<string>)
    | InvalidSortCriteria(resourceType: string, field: string)
    | InvalidLinksObject
    | TypeMismatch(linkType: Option<string>)
    | CountMismatch
    | MissingKey
    | KeyNotIncludedInURL(key: string)
    | ToManySetReplacementForbidden
    | ParametersNotAllowed(params: seq<string>)
    | InternalServerError(detail: string)
    | InvalidKeyValue(value: Json)
    | NameError(name: string)
    | RubyError(exceptionClass: string)
    | Aggregated(errors: seq<Error>)

  /** `AggregatedError.rescuing_map` / `rescuing_each` after every element was tried:
      one failure is raised as it is, several are raised together. */
  function Aggregate(errors: seq<Error>): (e: Error)
    requires |errors| > 0
    ensures |errors| == 1 ==> e == errors[0]
    ensures |errors| > 1 ==> e == Aggregated(errors)
  {
    if |errors| == 1 then errors[0] else Aggregated(errors)
  }

  /** The raised error is `e`, or an aggregate that carries `e`. */
  predicate Reports(raised: Error, e: Error) {
    raised == e || (raised.Aggregated? && e in raised.errors)
  }

  lemma AggregateReportsEach(errors: seq<Error>, i: nat)
    requires i < |errors|
    ensures Reports(Aggregate(errors), errors[i])
  {
  }

  datatype WarningCode = ParamNotAllowed

  /** `JSONAPI::Warning`. */
  datatype Warning = Warning(code: WarningCode, title: string, detail: string)

  function ParamNotAllowedWarning(key: string): (w: Warning)
    ensures w.code == ParamNotAllowed && w.title == "Param not allowed"
    ensures w.detail == key + " is not allowed."
  {
    Warning(ParamNotAllowed, "Param not allowed", key + " is not allowed.")
  }

  /** A declared relationship (`JSONAPI::Relationship::ToOne` or `ToMany`). */
  datatype Relationship = Relationship(
    name: string,
    toMany: bool,
    polymorphic: bool,
    actsAsSet: bool,
    className: string,
    relType: string)

  /** A resource class, as far as the parser asks it anything. The field sets stand
      for the context-dependent class methods evaluated in the request's context;
      key and filter verification are the resource's own functions. */
  datatype ResourceDef = ResourceDef(
    resourceType: string,                       // _type
    modulePath: string,                         // module_path
    fields: seq<string>,                        // fields
    relationships: map<string, Relationship>,   // _relationship(name)
    allowedFilters: seq<(string, Option<Json>)>, // _allowed_filters: name and default
    sortableFields: set<string>,                // sortable_fields(context)
    creatableFields: seq<string>,               // creatable_fields(context)
    updatableFields: seq<string>,               // updatable_fields(context)
    parentKey: string,                          // _as_parent_key
    attributeFormats: map<string, string>,      // _attribute_options(attr)[:format]
    verifyKey: Json -> Result<Json, Error>,     // verify_key(key, context)
    verifyFilters: map<string, Json> -> Result<map<string, Json>, Error>)

  /** `_allowed_filter?`. */
  predicate AllowedFilter(r: ResourceDef, name: string) {
    exists i :: 0 <= i < |r.allowedFilters| && r.allowedFilters[i].0 == name
  }

  /** `_relationship(name)`. */
  function RelationshipNamed(r: ResourceDef, name: string): (rel: Option<Relationship>)
    ensures rel.Some? <==> name in r.relationships
    ensures rel.Some? ==> rel.value == r.relationships[name]
  {
    if name in r.relationships then Some(r.relationships[name]) else None
  }

  /** `verify_keys`: every key through `verify_key`, the first failure raised. */
  function VerifyKeys(r: ResourceDef, keys: seq<Json>): (res: Result<seq<Json>, Error>)
    ensures res.Ok? <==> forall i :: 0 <= i < |keys| ==> r.verifyKey(keys[i]).Ok?
    ensures res.Ok? ==> |res.value| == |keys| && forall i :: 0 <= i < |keys| ==> res.value[i] == r.verifyKey(keys[i]).value
  {
    if keys == [] then Ok([])
    else
      var first :- r.verifyKey(keys[0]);
      var rest :- VerifyKeys(r, keys[1..]);
      assert forall i :: 1 <= i < |keys| ==> keys[i] == keys[1..][i - 1];
      Ok([first] + rest)
  }

  /** The configuration switches the parser reads. */
  datatype Config = Config(
    allowInclude: bool,
    allowFilter: bool,
    allowSort: bool,
    raiseIfParametersNotAllowed: bool)

  /** Everything a parser instance is built with: the key formatter, the
      configuration, its resource class and the resource registry that
      `Resource.resource_for` consults (keyed by module path plus underscored type). */
  datatype Env = Env(
    keyFormatter: FormatterClass,
    config: Config,
    resource: ResourceDef,
    registry: map<string, ResourceDef>)

  /** `Resource.resource_for(name)`: NameError when no class answers to the name. */
  function ResourceFor(env: Env, name: string): (r: Result<ResourceDef, Error>)
    ensures r.Ok? <==> name in env.registry
    ensures r.Err? ==> r.error == NameError(name)
  {
    if name in env.registry then Ok(env.registry[name]) else Err(NameError(name))
  }

  // ------------------------------------------------------------- parameters

  /** Request parameters: a hash from parameter name to value. */
  type Params = seq<(string, Json)>

  predicate HasKey(p: Params, key: string) {
    Get(p, key).Some?
  }

  /** `params.require(key)`: the value, unless it is blank (`false` is let through). */
  function Require(p: Params, key: string): (r: Result<Json, Error>)
    ensures r.Ok? <==> !Blank(Lookup(p, key)) || Lookup(p, key) == JBool(false)
    ensures r.Ok? ==> r.value == Lookup(p, key)
    ensures r.Err? ==> r.error == ParameterMissing(key)
  {
    var v := Lookup(p, key);
    if !Blank(v) || v == JBool(false) then Ok(v) else Err(ParameterMissing(key))
  }

  /** `params.fetch(key)`: the value, nil included, when the key is there. */
  function Fetch(p: Params, key: string): (r: Result<Json, Error>)
    ensures r.Ok? <==> HasKey(p, key)
    ensures r.Ok? ==> r.value == Lookup(p, key)
    ensures r.Err? ==> r.error == ParameterMissing(key)
  {
    match Get(p, key)
    case Some(v) => Ok(v)
    case None => Err(ParameterMissing(key))
  }

  /** `value[:key]` on whatever a parameter holds: a hash answers (nil when the key
      is absent); nil and booleans have no `[]`, and strings, arrays and integers
      refuse a symbol index. */
  function Index(v: Json, key: string): (r: Result<Json, Error>)
    ensures v.JObj? <==> r.Ok?
    ensures v.JObj? ==> r.value == Lookup(v.entries, key)
  {
    match v
    case JObj(entries) => Ok(Lookup(entries, key))
    case JNull => Err(RubyError("NoMethodError"))
    case JBool(_) => Err(RubyError("NoMethodError"))
    case _ => Err(RubyError("TypeError"))
  }

  // ------------------------------------------------------------- rescuing_map

  /** The errors of the elements that failed, in order. */
  function Failures<T, U>(xs: seq<T>, f: T -> Result<U, Error>): (es: seq<Error>)
    ensures |es| <= |xs|
    ensures es == [] <==> forall i :: 0 <= i < |xs| ==> f(xs[i]).Ok?
    ensures forall i :: 0 <= i < |xs| && f(xs[i]).Err? ==> f(xs[i]).error in es
    decreases |xs|
  {
    if xs == [] then []
    else
      var init := xs[..|xs| - 1];
      var last := f(xs[|xs| - 1]);
      assert forall i :: 0 <= i < |init| ==> init[i] == xs[i];
      Failures(init, f) + (if last.Err? then [last.error] else [])
  }

  /** The results of the elements that succeeded, in order. */
  function Successes<T, U>(xs: seq<T>, f: T -> Result<U, Error>): seq<U>
    decreases |xs|
  {
    if xs == [] then []
    else
      var last := f(xs[|xs| - 1]);
      Successes(xs[..|xs| - 1], f) + (if last.Ok? then [last.value] else [])
  }

  /** One more element tried: its result, if any, joins the successes. */
  lemma SuccessesSnoc<T, U>(xs: seq<T>, i: nat, f: T -> Result<U, Error>)
    requires i < |xs|
    ensures Successes(xs[..i + 1], f) == Successes(xs[..i], f) + (if f(xs[i]).Ok? then [f(xs[i]).value] else [])
  {
    assert xs[..i + 1][..i] == xs[..i];
  }

  /** When every element succeeds, the successes are all the results, in order. */
  lemma {:induction false} SuccessesAll<T, U>(xs: seq<T>, f: T -> Result<U, Error>)
    requires forall i :: 0 <= i < |xs| ==> f(xs[i]).Ok?
    ensures |Successes(xs, f)| == |xs|
    ensures forall i :: 0 <= i < |xs| ==> Successes(xs, f)[i] == f(xs[i]).value
    decreases |xs|
  {
    if xs != [] {
      var init := xs[..|xs| - 1];
      assert forall i :: 0 <= i < |init| ==> init[i] == xs[i];
      SuccessesAll(init, f);
    }
  }

  /** Every success is the result of some element. */
  lemma {:induction false} SuccessesFrom<T, U>(xs: seq<T>, f: T -> Result<U, Error>)
    ensures forall k :: 0 <= k < |Successes(xs, f)| ==> exists i :: 0 <= i < |xs| && f(xs[i]) == Ok(Successes(xs, f)[k])
    decreases |xs|
  {
    if xs != [] {
      var init := xs[..|xs| - 1];
      var prev := Successes(init, f);
      var last := f(xs[|xs| - 1]);
      assert Successes(xs, f) == prev + (if last.Ok? then [last.value] else []);
      SuccessesFrom(init, f);
      forall k | 0 <= k < |Successes(xs, f)|
        ensures exists i :: 0 <= i < |xs| && f(xs[i]) == Ok(Successes(xs, f)[k])
      {
        if k < |prev| {
          var i :| 0 <= i < |init| && f(init[i]) == Ok(prev[k]);
          assert init[i] == xs[i];
        } else {
          assert last.Ok? && k == |prev|;
          assert f(xs[|xs| - 1]) == Ok(Successes(xs, f)[k]);
        }
      }
    } else {
      assert Successes(xs, f) == [];
    }
  }

  /** `AggregatedError.rescuing_map`: every element is tried; the results in order
      when all succeed, otherwise the failures raised together. */
  function RescuingMap<T, U>(xs: seq<T>, f: T -> Result<U, Error>): (r: Result<seq<U>, Error>)
    ensures r.Ok? <==> forall i :: 0 <= i < |xs| ==> f(xs[i]).Ok?
    ensures r.Ok? ==> |r.value| == |xs| && forall i :: 0 <= i < |xs| ==> r.value[i] == f(xs[i]).value
    ensures forall i :: 0 <= i < |xs| && f(xs[i]).Err? ==> r.Err? && Reports(r.error, f(xs[i]).error)
  {
    var es := Failures(xs, f);
    if es == [] then Ok(seq(|xs|, i requires 0 <= i < |xs| => f(xs[i]).value))
    else Err(Aggregate(es))
  }

  /** Filling a Ruby hash pair by pair: a later pair for the same key overwrites. */
  function ToMap<V>(kvs: seq<(string, V)>): map<string, V>
    decreases |kvs|
  {
    if kvs == [] then map[] else ToMap(kvs[..|kvs| - 1])[kvs[|kvs| - 1].0 := kvs[|kvs| - 1].1]
  }

  /** The hash holds exactly the keys of the pairs, each with the value of the last
      pair for it. */
  lemma {:induction false} ToMapSpec<V>(kvs: seq<(string, V)>)
    ensures forall k :: k in ToMap(kvs) <==> exists i :: 0 <= i < |kvs| && kvs[i].0 == k
    ensures forall i :: 0 <= i < |kvs| && (forall j :: i < j < |kvs| ==> kvs[j].0 != kvs[i].0) ==> ToMap(kvs)[kvs[i].0] == kvs[i].1
    decreases |kvs|
  {
    if kvs != [] {
      var init := kvs[..|kvs| - 1];
      ToMapSpec(init);
      assert forall i :: 0 <= i < |init| ==> init[i] == kvs[i];
    }
  }

  /** One more element tried: its error, if any, joins the failures. */
  lemma FailuresSnoc<T, U>(xs: seq<T>, i: nat, f: T -> Result<U, Error>)
    requires i < |xs|
    ensures Failures(xs[..i + 1], f) == Failures(xs[..i], f) + (if f(xs[i]).Err? then [f(xs[i]).error] else [])
  {
    assert xs[..i + 1][..i] == xs[..i];
  }

  /** One more pair stored. */
  lemma ToMapSnoc<V>(kvs: seq<(string, V)>, kv: (string, V))
    ensures ToMap(kvs + [kv]) == ToMap(kvs)[kv.0 := kv.1]
  {
    assert (kvs + [kv])[..|kvs|] == kvs;
  }

  /** The loop of `rescuing_map`: every element tried in order, results and
      failures collected side by side. */
  method RescuingMapLoop<T, U>(xs: seq<T>, f: T -> Result<U, Error>) returns (r: Result<seq<U>, Error>)
    ensures r == RescuingMap(xs, f)
  {
    var results: seq<U> := [];
    var errors: seq<Error> := [];
    var i := 0;
    while i < |xs|
      invariant 0 <= i <= |xs|
      invariant errors == Failures(xs[..i], f)
      invariant errors == [] ==> |results| == i && forall k :: 0 <= k < i ==> f(xs[k]) == Ok(results[k])
    {
      FailuresSnoc(xs, i, f);
      var y := f(xs[i]);
      if y.Ok? {
        results := results + [y.value];
      } else {
        errors := errors + [y.error];
      }
      i := i + 1;
    }
    assert xs[..i] == xs;
    if errors == [] {
      assert forall k :: 0 <= k < |xs| ==> results[k] == f(xs[k]).value;
      assert results == seq(|xs|, k requires 0 <= k < |xs| => f(xs[k]).value);
      r := Ok(results);
    } else {
      r := Err(Aggregate(errors));
    }
  }
}
