/** `JSONAPI::RequestParser`: from the request parameters of one controller
    action to the list of operations the processor runs, or the error raised.
    The specification functions compute each action's result afresh; the class
    `Parser` is the stateful object itself, with its memoised parameters and the
    warnings it appends, and each of its methods is proved to return what the
    specification computes. */
module RequestParser {
  import opened Values
  import opened Strings
  import opened Formatter
  import opened Resources
  import opened QueryParams
  import opened Linkage
  import opened BodyParams

  // ================================================================= actions

  /** The controller actions that have a `setup_<action>_action` routine. */
  datatype Action =
    | IndexAction
    | GetRelatedResourceAction
    | GetRelatedResourcesAction
    | ShowAction
    | ShowRelationshipAction
    | CreateAction
    | CreateRelationshipAction
    | UpdateRelationshipAction
    | UpdateAction
    | DestroyAction
    | DestroyRelationshipAction

  function ActionName(a: Action): string {
    match a
    case IndexAction => "index"
    case GetRelatedResourceAction => "get_related_resource"
    case GetRelatedResourcesAction => "get_related_resources"
    case ShowAction => "show"
    case ShowRelationshipAction => "show_relationship"
    case CreateAction => "create"
    case CreateRelationshipAction => "create_relationship"
    case UpdateRelationshipAction => "update_relationship"
    case UpdateAction => "update"
    case DestroyAction => "destroy"
    case DestroyRelationshipAction => "destroy_relationship"
  }

  /** The setup routine the `action` parameter names, if the parser has one. */
  function ActionOf(v: Json): (r: Option<Action>)
    ensures r.Some? ==> v == JStr(ActionName(r.value))
  {
    match v
    case JStr(s) =>
      if s == "index" then Some(IndexAction)
      else if s == "get_related_resource" then Some(GetRelatedResourceAction)
      else if s == "get_related_resources" then Some(GetRelatedResourcesAction)
      else if s == "show" then Some(ShowAction)
      else if s == "show_relationship" then Some(ShowRelationshipAction)
      else if s == "create" then Some(CreateAction)
      else if s == "create_relationship" then Some(CreateRelationshipAction)
      else if s == "update_relationship" then Some(UpdateRelationshipAction)
      else if s == "update" then Some(UpdateAction)
      else if s == "destroy" then Some(DestroyAction)
      else if s == "destroy_relationship" then Some(DestroyRelationshipAction)
      else None
    case _ => None
  }

  /** Every setup routine is reached by its own name. */
  lemma ActionOfName(a: Action)
    ensures ActionOf(JStr(ActionName(a))) == Some(a)
  {
    match a
    case IndexAction =>
    case GetRelatedResourceAction =>
    case GetRelatedResourcesAction =>
    case ShowAction =>
    case ShowRelationshipAction =>
    case CreateAction =>
    case CreateRelationshipAction =>
    case UpdateRelationshipAction =>
    case UpdateAction =>
    case DestroyAction =>
    case DestroyRelationshipAction =>
  }

  /** Ruby's `inspect` of the action parameter, for the error message. */
  function Inspect(v: Json): string {
    match v
    case JNull => "nil"
    case JStr(s) => "\"" + s + "\""
    case _ => ToS(v)
  }

  // ================================================================= operations

  /** The operations handed to the processor, one constructor per operation type,
      with the options each setup routine passes. */
  datatype Operation =
    | Find(filters: map<string, Json>, includeDirectives: Option<seq<string>>,
           sortCriteria: seq<SortCriterion>, fields: map<string, seq<string>>)
    | ShowRelatedResource(relationshipType: Json, includeDirectives: Option<seq<string>>,
                          sourceType: string, sourceId: Json, fields: map<string, seq<string>>)
    | ShowRelatedResources(relationshipType: Json, sourceType: string, sourceId: Json,
                           filters: map<string, Json>, includeDirectives: Option<seq<string>>,
                           sortCriteria: seq<SortCriterion>, fields: map<string, seq<string>>)
    | Show(id: Json, includeDirectives: Option<seq<string>>, fields: map<string, seq<string>>)
    | ShowRelationship(relationshipType: Json, parentKey: Json)
    | CreateResource(data: ParsedParams, fields: map<string, seq<string>>)
    | CreateToManyRelationship(resourceId: Json, relationshipName: string, toManyData: Option<seq<Json>>)
    | ReplaceToOneRelationship(resourceId: Json, relationshipName: string, keyValue: Json)
    | ReplacePolymorphicToOneRelationship(resourceId: Json, relationshipName: string, keyValue: Json, keyType: string)
    | ReplaceToManyRelationship(resourceId: Json, relationshipName: string, toManyData: Option<seq<Json>>)
    | ReplaceFields(resourceKey: string, data: ParsedParams, fields: map<string, seq<string>>)
    | RemoveResource(resourceId: Json)
    | RemoveToOneRelationship(resourceId: Json, relationshipName: string)
    | RemoveToManyRelationship(resourceId: Json, relationshipName: string, associatedKey: Json)

  /** `hash.values[0]`: the first value of a table, nil when it is empty. */
  function FirstValue<V>(entries: seq<(string, V)>): Option<V> {
    if entries == [] then None else Some(entries[0].1)
  }

  // ================================================================= rescuing_map with warnings

  function Results<T, U>(f: T -> Parsed<U>): T -> Result<U, Error> {
    x => f(x).result
  }

  /** The warnings appended while every element is tried, in order. */
  function AllWarnings<T, U>(xs: seq<T>, f: T -> Parsed<U>): seq<Warning>
    decreases |xs|
  {
    if xs == [] then [] else AllWarnings(xs[..|xs| - 1], f) + f(xs[|xs| - 1]).warnings
  }

  lemma AllWarningsSnoc<T, U>(xs: seq<T>, i: nat, f: T -> Parsed<U>)
    requires i < |xs|
    ensures AllWarnings(xs[..i + 1], f) == AllWarnings(xs[..i], f) + f(xs[i]).warnings
  {
    assert xs[..i + 1][..i] == xs[..i];
  }

  /** No element appends a warning, so the whole map appends none. */
  lemma {:induction false} AllWarningsNone<T, U>(xs: seq<T>, f: T -> Parsed<U>)
    requires forall i :: 0 <= i < |xs| ==> f(xs[i]).warnings == []
    ensures AllWarnings(xs, f) == []
    decreases |xs|
  {
    if xs != [] {
      var init := xs[..|xs| - 1];
      assert forall i :: 0 <= i < |init| ==> init[i] == xs[i];
      AllWarningsNone(init, f);
    }
  }

  /** `rescuing_map` over elements that may append warnings before they raise. */
  function RescuingMapW<T, U>(xs: seq<T>, f: T -> Parsed<U>): Parsed<seq<U>> {
    Parsed(RescuingMap(xs, Results(f)), AllWarnings(xs, f))
  }

  /** What the rescuing loop has collected after trying every element of `xs`:
      the failures, the results of the elements that succeeded, the warnings. */
  function RescueState<T, U>(xs: seq<T>, f: T -> Parsed<U>): (seq<Error>, seq<U>, seq<Warning>)
    decreases |xs|
  {
    if xs == [] then ([], [], [])
    else RescueTurn(RescueState(xs[..|xs| - 1], f), f(xs[|xs| - 1]))
  }

  /** One element tried: its failure or its result recorded, its warnings appended. */
  function RescueTurn<U>(state: (seq<Error>, seq<U>, seq<Warning>), y: Parsed<U>): (seq<Error>, seq<U>, seq<Warning>) {
    var (errors, results, ws) := state;
    match y.result
    case Ok(v) => (errors, results + [v], ws + y.warnings)
    case Err(e) => (errors + [e], results, ws + y.warnings)
  }

  lemma RescueStateSnoc<T, U>(xs: seq<T>, i: nat, f: T -> Parsed<U>)
    requires i < |xs|
    ensures RescueState(xs[..i + 1], f) == RescueTurn(RescueState(xs[..i], f), f(xs[i]))
  {
    assert xs[..i + 1][..i] == xs[..i];
  }

  /** The loop's collection is the rescuing map: the failures are those of the
      map, the results are every element's when none failed, and the warnings
      are all of them in order. */
  lemma {:induction false} RescueStateSpec<T, U>(xs: seq<T>, f: T -> Parsed<U>)
    ensures RescueState(xs, f).0 == Failures(xs, Results(f))
    ensures RescueState(xs, f).2 == AllWarnings(xs, f)
    ensures RescueState(xs, f).0 == [] ==>
              RescueState(xs, f).1 == seq(|xs|, k requires 0 <= k < |xs| => f(xs[k]).result.value)
    decreases |xs|
  {
    if xs != [] {
      var init := xs[..|xs| - 1];
      RescueStateSpec(init, f);
      assert forall k :: 0 <= k < |init| ==> init[k] == xs[k];
      if RescueState(xs, f).0 == [] {
        assert Failures(init, Results(f)) == [];
        assert Results(f)(xs[|xs| - 1]).Ok?;
      }
    }
  }

  /** The outcome the source raises or returns once every element is tried. */
  function RescueOutcome<U>(state: (seq<Error>, seq<U>, seq<Warning>)): Parsed<seq<U>> {
    Parsed(if state.0 == [] then Ok(state.1) else Err(Aggregate(state.0)), state.2)
  }

  lemma RescueOutcomeIsRescuingMap<T, U>(xs: seq<T>, f: T -> Parsed<U>)
    ensures RescueOutcome(RescueState(xs, f)) == RescuingMapW(xs, f)
  {
    RescueStateSpec(xs, f);
    if RescueState(xs, f).0 == [] {
      assert RescueState(xs, f).1 == seq(|xs|, k requires 0 <= k < |xs| => Results(f)(xs[k]).value);
    }
  }

  function Plain<T>(r: Result<T, Error>): Parsed<T> {
    Parsed(r, [])
  }

  // ================================================================= memoised parameters

  /** `source_klass`: the resource named by the `source` parameter. */
  function SourceKlassOf(env: Env, p: Params): Result<ResourceDef, Error> {
    var source :- Require(p, "source");
    if source.JStr? then ResourceFor(env, source.s) else Err(RubyError("NoMethodError"))
  }

  /** `source_id`: the source resource's parent key parameter, verified by it. */
  function SourceIdOf(env: Env, p: Params): Result<Json, Error> {
    var source :- SourceKlassOf(env, p);
    var key :- Require(p, source.parentKey);
    source.verifyKey(key)
  }

  /** `relationship`: nil without a `relationship` parameter, otherwise the
      resource's relationship of that name (nil when it has none). */
  function RelationshipOf(env: Env, p: Params): Result<Option<Relationship>, Error> {
    if !HasKey(p, "relationship") then Ok(None)
    else
      var name :- Require(p, "relationship");
      if name.JStr? then Ok(RelationshipNamed(env.resource, name.s)) else Err(RubyError("NoMethodError"))
  }

  /** The body `relationship_params` hands to `parse_params`. */
  function RelationshipBody(env: Env, rel: Relationship, data: Json): Params {
    [("relationships", JObj([(FormatKey(env.keyFormatter, rel.name), JObj([("data", data)]))]))]
  }

  /** `relationship_params`: the `data` parameter parsed as the relationship's
      linkage against the updatable fields. */
  function RelationshipParamsOf(env: Env, p: Params, rel: Relationship): Parsed<ParsedParams> {
    match Fetch(p, "data")
    case Err(e) => Parsed(Err(e), [])
    case Ok(data) => ParseParams(env, env.resource.updatableFields, RelationshipBody(env, rel, data))
  }

  // ================================================================= reading actions

  /** The include directives, sort criteria and sparse fieldsets of a listing,
      read in that order. */
  function ListingOf(env: Env, p: Params): Result<(Option<seq<string>>, seq<SortCriterion>, map<string, seq<string>>), Error> {
    var includes :- IncludeDirectivesOf(env, p);
    var sort :- SortCriteriaOf(env, p);
    var fields :- FieldsOf(env, p);
    Ok((includes, sort, fields))
  }

  function IndexOps(env: Env, p: Params): Result<seq<Operation>, Error> {
    var filters :- FiltersOf(env, p);
    var (includes, sort, fields) :- ListingOf(env, p);
    Ok([Find(filters, includes, sort, fields)])
  }

  function GetRelatedResourceOps(env: Env, p: Params): Result<seq<Operation>, Error> {
    var includes :- IncludeDirectivesOf(env, p);
    var source :- SourceKlassOf(env, p);
    var sourceId :- SourceIdOf(env, p);
    var fields :- FieldsOf(env, p);
    Ok([ShowRelatedResource(Lookup(p, "relationship"), includes, source.resourceType, sourceId, fields)])
  }

  function GetRelatedResourcesOps(env: Env, p: Params): Result<seq<Operation>, Error> {
    var source :- SourceKlassOf(env, p);
    var sourceId :- SourceIdOf(env, p);
    var filters :- FiltersOf(env, p);
    var verified :- source.verifyFilters(filters);
    var (includes, sort, fields) :- ListingOf(env, p);
    Ok([ShowRelatedResources(Lookup(p, "relationship"), source.resourceType, sourceId, verified, includes, sort, fields)])
  }

  function ShowOps(env: Env, p: Params): Result<seq<Operation>, Error> {
    var includes :- IncludeDirectivesOf(env, p);
    var fields :- FieldsOf(env, p);
    Ok([Show(Lookup(p, "id"), includes, fields)])
  }

  function ShowRelationshipOps(env: Env, p: Params): Result<seq<Operation>, Error> {
    var key :- Require(p, env.resource.parentKey);
    var parent :- env.resource.verifyKey(key);
    Ok([ShowRelationship(Lookup(p, "relationship"), parent)])
  }

  // ================================================================= create and update

  /** The per-element block of `setup_create_action`. */
  function CreateItemOf(env: Env, p: Params, raw: Json): Parsed<Operation> {
    match Index(raw, "type")
    case Err(e) => Plain(Err(e))
    case Ok(t) =>
      match VerifyType(env, t)
      case Err(e) => Plain(Err(e))
      case Ok(_) =>
        var parsed := ParseParams(env, env.resource.creatableFields, raw.entries);
        match parsed.result
        case Err(e) => Parsed(Err(e), parsed.warnings)
        case Ok(data) =>
          match FieldsOf(env, p)
          case Err(e) => Parsed(Err(e), parsed.warnings)
          case Ok(fields) => Parsed(Ok(CreateResource(data, fields)), parsed.warnings)
  }

  /** The per-element block of `setup_update_action`: the key must be there and,
      when the check is on, be one of the URL's keys; the key is removed from the
      body (the `keys.include?(:id)` guard never holds), then the type is checked
      and the rest parsed against the updatable fields. */
  function UpdateItemOf(env: Env, p: Params, keys: seq<Json>, checkKeys: bool, raw: Json): Parsed<Operation> {
    match Index(raw, "id")
    case Err(e) => Plain(Err(e))
    case Ok(id) =>
      if id == JNull then Plain(Err(MissingKey))
      else
        var key := ToS(id);
        if checkKeys && JStr(key) !in keys then Plain(Err(KeyNotIncludedInURL(key)))
        else UpdateBodyOf(env, p, key, Delete(raw.entries, "id"))
  }

  /** The rest of the update block, once the key is removed from the body. */
  function UpdateBodyOf(env: Env, p: Params, key: string, obj: Params): Parsed<Operation> {
    match VerifyType(env, Lookup(obj, "type"))
    case Err(e) => Plain(Err(e))
    case Ok(_) =>
      var parsed := ParseParams(env, env.resource.updatableFields, obj);
      match parsed.result
      case Err(e) => Parsed(Err(e), parsed.warnings)
      case Ok(data) =>
        match FieldsOf(env, p)
        case Err(e) => Parsed(Err(e), parsed.warnings)
        case Ok(fields) => Parsed(Ok(ReplaceFields(key, data, fields)), parsed.warnings)
  }

  /** Which per-element block a rescuing map runs. */
  datatype ItemAction = CreateItem | UpdateItem(keys: seq<Json>, checkKeys: bool)

  function ItemOf(env: Env, p: Params, kind: ItemAction, raw: Json): Parsed<Operation> {
    match kind
    case CreateItem => CreateItemOf(env, p, raw)
    case UpdateItem(keys, checkKeys) => UpdateItemOf(env, p, keys, checkKeys, raw)
  }

  function ItemSpec(env: Env, p: Params, kind: ItemAction): Json -> Parsed<Operation> {
    raw => ItemOf(env, p, kind, raw)
  }

  /** What the rescuing loop has collected from the outcomes of the elements tried
      so far, in order. */
  function Collected<U>(ys: seq<Parsed<U>>): (seq<Error>, seq<U>, seq<Warning>)
    decreases |ys|
  {
    if ys == [] then ([], [], [])
    else RescueTurn(Collected(ys[..|ys| - 1]), ys[|ys| - 1])
  }

  lemma CollectedSnoc<U>(ys: seq<Parsed<U>>, y: Parsed<U>)
    ensures Collected(ys + [y]) == RescueTurn(Collected(ys), y)
  {
    assert (ys + [y])[..|ys|] == ys;
  }

  lemma AppendAssoc<T>(a: seq<T>, b: seq<T>, c: seq<T>)
    ensures a + b + c == a + (b + c)
  {
  }

  /** Collecting the outcomes of `f` on each element is the rescuing loop over the
      elements. */
  lemma {:induction false} CollectedIsRescueState<T, U>(xs: seq<T>, f: T -> Parsed<U>, ys: seq<Parsed<U>>)
    requires |ys| == |xs|
    requires forall k :: 0 <= k < |xs| ==> ys[k] == f(xs[k])
    ensures Collected(ys) == RescueState(xs, f)
    decreases |xs|
  {
    if xs != [] {
      CollectedIsRescueState(xs[..|xs| - 1], f, ys[..|ys| - 1]);
    }
  }

  /** The outcome of the loop over the elements' outcomes is the rescuing map. */
  lemma ItemsOutcome(env: Env, p: Params, kind: ItemAction, items: seq<Json>, outs: seq<Parsed<Operation>>)
    requires |outs| == |items|
    requires forall k {:trigger ItemOf(env, p, kind, items[k])} :: 0 <= k < |items| ==> outs[k] == ItemOf(env, p, kind, items[k])
    ensures RescueOutcome(Collected(outs)) == RescuingMapW(items, ItemSpec(env, p, kind))
  {
    forall k | 0 <= k < |items|
      ensures outs[k] == ItemSpec(env, p, kind)(items[k])
    {
      assert ItemSpec(env, p, kind)(items[k]) == ItemOf(env, p, kind, items[k]);
    }
    CollectedIsRescueState(items, ItemSpec(env, p, kind), outs);
    RescueOutcomeIsRescuingMap(items, ItemSpec(env, p, kind));
  }

  function CreateOps(env: Env, p: Params): Parsed<seq<Operation>> {
    match Require(p, "data")
    case Err(e) => Plain(Err(e))
    case Ok(data) => RescuingMapW(Wrap(data), ItemSpec(env, p, CreateItem))
  }

  /** The keys named by the URL. */
  function UrlKeys(p: Params): seq<Json> {
    Wrap(Lookup(p, "id"))
  }

  /** Whether each element's key must be one of the URL's keys. */
  predicate KeyCheckRequired(p: Params) {
    Lookup(p, "data").JArr? || HasKey(p, "id")
  }

  function UpdateOps(env: Env, p: Params): Parsed<seq<Operation>> {
    match Require(p, "data")
    case Err(e) => Plain(Err(e))
    case Ok(data) =>
      var items := Wrap(data);
      if HasKey(p, "id") && |UrlKeys(p)| != |items| then Plain(Err(CountMismatch))
      else RescuingMapW(items, ItemSpec(env, p, UpdateItem(UrlKeys(p), KeyCheckRequired(p))))
  }

  function DestroyOps(env: Env, p: Params): Result<seq<Operation>, Error> {
    var raw :- Require(p, "id");
    var keys :- ParseKeyArray(env, raw);
    Ok(seq(|keys|, i requires 0 <= i < |keys| => RemoveResource(keys[i])))
  }

  // ================================================================= relationship actions

  function CreateRelationshipOps(env: Env, p: Params): Parsed<seq<Operation>> {
    match RelationshipOf(env, p)
    case Err(e) => Plain(Err(e))
    case Ok(rel) =>
      if rel.None? || !rel.value.toMany then Plain(Ok([]))
      else
        match Require(p, env.resource.parentKey)
        case Err(e) => Plain(Err(e))
        case Ok(id) =>
          var parsed := RelationshipParamsOf(env, p, rel.value);
          match parsed.result
          case Err(e) => Parsed(Err(e), parsed.warnings)
          case Ok(data) =>
            Parsed(Ok([CreateToManyRelationship(id, rel.value.name, FirstValue(data.toMany))]), parsed.warnings)
  }

  /** `values[0]` of the to-one table as the key value: nil for a missing entry or
      a nil linkage, the hash of id and type for a polymorphic one. */
  function KeyValue(v: Option<ToOneValue>): Json {
    match v
    case None => JNull
    case Some(NoLink) => JNull
    case Some(Key(id)) => id
    case Some(PolymorphicKey(id, t)) => JObj([("id", id), ("type", JStr(t))])
  }

  /** The operation `setup_update_relationship_action` builds from the parsed
      relationship. A polymorphic to-one without linkage reads `[:id]` of nil. */
  function ReplaceRelationship(id: Json, rel: Relationship, data: ParsedParams): Result<seq<Operation>, Error> {
    if !rel.toMany then
      if rel.polymorphic then
        var first: Option<ToOneValue> := FirstValue(data.toOne);
        match first
        case Some(PolymorphicKey(key, t)) => Ok([ReplacePolymorphicToOneRelationship(id, rel.name, key, t)])
        case _ => Err(RubyError("NoMethodError"))
      else Ok([ReplaceToOneRelationship(id, rel.name, KeyValue(FirstValue(data.toOne)))])
    else if !rel.actsAsSet then Err(ToManySetReplacementForbidden)
    else Ok([ReplaceToManyRelationship(id, rel.name, FirstValue(data.toMany))])
  }

  function UpdateRelationshipOps(env: Env, p: Params): Parsed<seq<Operation>> {
    match Require(p, env.resource.parentKey)
    case Err(e) => Plain(Err(e))
    case Ok(id) =>
      match RelationshipOf(env, p)
      case Err(e) => Plain(Err(e))
      case Ok(None) => Plain(Err(RubyError("NoMethodError")))
      case Ok(Some(rel)) =>
        var parsed := RelationshipParamsOf(env, p, rel);
        match parsed.result
        case Err(e) => Parsed(Err(e), parsed.warnings)
        case Ok(data) => Parsed(ReplaceRelationship(id, rel, data), parsed.warnings)
  }

  function DestroyRelationshipOps(env: Env, p: Params): Parsed<seq<Operation>> {
    match Require(p, env.resource.parentKey)
    case Err(e) => Plain(Err(e))
    case Ok(id) =>
      match RelationshipOf(env, p)
      case Err(e) => Plain(Err(e))
      case Ok(None) => Plain(Err(RubyError("NoMethodError")))
      case Ok(Some(rel)) => RemoveRelationshipOf(env, p, id, rel)
  }

  /** The operations of `setup_destroy_relationship_action` once the relationship
      is known: one to-one removal, or one removal per linked key. */
  function RemoveRelationshipOf(env: Env, p: Params, id: Json, rel: Relationship): Parsed<seq<Operation>> {
    if !rel.toMany then Plain(Ok([RemoveToOneRelationship(id, rel.name)]))
    else
      var parsed := RelationshipParamsOf(env, p, rel);
      match parsed.result
      case Err(e) => Parsed(Err(e), parsed.warnings)
      case Ok(data) => Parsed(RemoveKeysOps(id, rel, data), parsed.warnings)
  }

  /** `relationship_params[:to_many].values.first.map`: one removal per key;
      nil has no `map` when the relationship was not kept. */
  function RemoveKeysOps(id: Json, rel: Relationship, data: ParsedParams): Result<seq<Operation>, Error> {
    match FirstValue(data.toMany)
    case None => Err(RubyError("NoMethodError"))
    case Some(keys) => Ok(seq(|keys|, i requires 0 <= i < |keys| => RemoveToManyRelationship(id, rel.name, keys[i])))
  }

  /** The `map` loop of `setup_destroy_action`: one removal per key, in order. */
  method RemoveResources(keys: seq<Json>) returns (ops: seq<Operation>)
    ensures ops == seq(|keys|, k requires 0 <= k < |keys| => RemoveResource(keys[k]))
  {
    ops := [];
    var i := 0;
    while i < |keys|
      invariant 0 <= i <= |keys|
      invariant |ops| == i && forall k :: 0 <= k < i ==> ops[k] == RemoveResource(keys[k])
    {
      ops := ops + [RemoveResource(keys[i])];
      i := i + 1;
    }
  }

  /** The `map` loop of `setup_destroy_relationship_action`. */
  method RemoveKeys(id: Json, rel: Relationship, data: ParsedParams) returns (r: Result<seq<Operation>, Error>)
    ensures r == RemoveKeysOps(id, rel, data)
  {
    var first := FirstValue(data.toMany);
    if first.None? {
      return Err(RubyError("NoMethodError"));
    }
    var keys := first.value;
    var ops: seq<Operation> := [];
    var i := 0;
    while i < |keys|
      invariant 0 <= i <= |keys|
      invariant |ops| == i && forall k :: 0 <= k < i ==> ops[k] == RemoveToManyRelationship(id, rel.name, keys[k])
    {
      ops := ops + [RemoveToManyRelationship(id, rel.name, keys[i])];
      i := i + 1;
    }
    assert ops == seq(|keys|, k requires 0 <= k < |keys| => RemoveToManyRelationship(id, rel.name, keys[k]));
    r := Ok(ops);
  }

  // ================================================================= operations

  function SetupOf(env: Env, p: Params, a: Action): Parsed<seq<Operation>> {
    match a
    case IndexAction => Plain(IndexOps(env, p))
    case GetRelatedResourceAction => Plain(GetRelatedResourceOps(env, p))
    case GetRelatedResourcesAction => Plain(GetRelatedResourcesOps(env, p))
    case ShowAction => Plain(ShowOps(env, p))
    case ShowRelationshipAction => Plain(ShowRelationshipOps(env, p))
    case CreateAction => CreateOps(env, p)
    case CreateRelationshipAction => CreateRelationshipOps(env, p)
    case UpdateRelationshipAction => UpdateRelationshipOps(env, p)
    case UpdateAction => UpdateOps(env, p)
    case DestroyAction => Plain(DestroyOps(env, p))
    case DestroyRelationshipAction => DestroyRelationshipOps(env, p)
  }

  /** `operations`: the setup routine the action names, or an internal server
      error for an action without one. */
  function OperationsOf(env: Env, p: Params): Parsed<seq<Operation>> {
    var action := Lookup(p, "action");
    match ActionOf(action)
    case None => Plain(Err(InternalServerError("Invalid action " + Inspect(action))))
    case Some(a) => SetupOf(env, p, a)
  }

  // ================================================================= the parser object

  /** What the filters memo holds once `filters` has run as the source writes it:
      the defaults when the request is refused before the supplied filters are
      read, otherwise every supplied filter that passed, whether or not others
      failed. */
  function FiltersLeftBehind(env: Env, p: Params): map<string, Json> {
    if !FilterGiven(p) || !env.config.allowFilter || !Iterable(FilterParam(p))
    then DefaultFilters(env.resource.allowedFilters)
    else ToMap(AcceptedFilters(env, EachPairs(FilterParam(p))))
  }

  /** The request parser: the parameters of one request, the warnings collected
      while parsing them, and the memoised results of the query-parameter
      readers. A memo, once set, holds what the reader computes afresh. */
  class Parser {
    const env: Env
    const params: Params
    var warnings: seq<Warning>
    var fieldsMemo: Option<map<string, seq<string>>>
    var filtersMemo: Option<map<string, Json>>
    var sortMemo: Option<seq<SortCriterion>>
    var includeMemo: Option<seq<string>>
    var sourceMemo: Option<ResourceDef>
    var sourceIdMemo: Option<Json>
    var relationshipMemo: Option<Relationship>

    /** Each memo, once set, holds what the parser computes for it. */
    ghost predicate FieldsMemoValid()
      reads this`fieldsMemo
    {
      fieldsMemo.Some? ==> FieldsOf(env, params) == Ok(fieldsMemo.value)
    }

    ghost predicate FiltersMemoValid()
      reads this`filtersMemo
    {
      filtersMemo.Some? ==> FiltersOf(env, params) == Ok(filtersMemo.value)
    }

    ghost predicate SortMemoValid()
      reads this`sortMemo
    {
      sortMemo.Some? ==> SortCriteriaOf(env, params) == Ok(sortMemo.value)
    }

    ghost predicate IncludeMemoValid()
      reads this`includeMemo
    {
      includeMemo.Some? ==> IncludeDirectivesOf(env, params) == Ok(Some(includeMemo.value))
    }

    ghost predicate SourceMemoValid()
      reads this`sourceMemo
    {
      sourceMemo.Some? ==> SourceKlassOf(env, params) == Ok(sourceMemo.value)
    }

    ghost predicate SourceIdMemoValid()
      reads this`sourceIdMemo
    {
      sourceIdMemo.Some? ==> SourceIdOf(env, params) == Ok(sourceIdMemo.value)
    }

    ghost predicate RelationshipMemoValid()
      reads this`relationshipMemo
    {
      relationshipMemo.Some? ==> RelationshipOf(env, params) == Ok(relationshipMemo)
    }

    ghost predicate Valid()
      reads this
    {
      && FieldsMemoValid() && FiltersMemoValid() && SortMemoValid() && IncludeMemoValid()
      && SourceMemoValid() && SourceIdMemoValid() && RelationshipMemoValid()
    }

    constructor(env: Env, params: Params)
      ensures this.env == env && this.params == params
      ensures warnings == []
      ensures fieldsMemo == None && filtersMemo == None && sortMemo == None && includeMemo == None
      ensures sourceMemo == None && sourceIdMemo == None && relationshipMemo == None
      ensures Valid()
    {
      this.env := env;
      this.params := params;
      warnings := [];
      fieldsMemo, filtersMemo, sortMemo, includeMemo := None, None, None, None;
      sourceMemo, sourceIdMemo, relationshipMemo := None, None, None;
    }

    /** `fields`. */
    method Fields() returns (r: Result<map<string, seq<string>>, Error>)
      requires FieldsMemoValid()
      modifies this`fieldsMemo
      ensures FieldsMemoValid()
      ensures r == FieldsOf(env, params)
      ensures fieldsMemo == (if r.Ok? then Some(r.value) else old(fieldsMemo))
    {
      if fieldsMemo.Some? {
        return Ok(fieldsMemo.value);
      }
      var v := Lookup(params, "fields");
      if v == JNull {
        fieldsMemo := Some(map[]);
        return Ok(map[]);
      }
      if !v.JObj? {
        return Err(InvalidFieldFormat);
      }
      r := CollectFields(env, v.entries);
      assert FieldsOf(env, [("fields", JObj(v.entries))]) == FieldsOf(env, params);
      if r.Ok? {
        fieldsMemo := Some(r.value);
      }
    }

    /** `filters`, with the memo set only once the filters are known to be valid. */
    method Filters() returns (r: Result<map<string, Json>, Error>)
      requires FiltersMemoValid()
      modifies this`filtersMemo
      ensures FiltersMemoValid()
      ensures r == FiltersOf(env, params)
      ensures filtersMemo == (if r.Ok? then Some(r.value) else old(filtersMemo))
    {
      if filtersMemo.Some? {
        return Ok(filtersMemo.value);
      }
      var defaults := CollectDefaultFilters(env.resource.allowedFilters);
      if !FilterGiven(params) {
        filtersMemo := Some(defaults);
        return Ok(defaults);
      }
      var fp := FilterParam(params);
      if !env.config.allowFilter {
        return Err(ParametersNotAllowed(["filter"]));
      }
      if !Iterable(fp) {
        return Err(InvalidFiltersSyntax(fp));
      }
      var supplied, errors := CollectFilters(env, EachPairs(fp));
      if errors != [] {
        return Err(Aggregate(errors));
      }
      filtersMemo := Some(supplied);
      r := Ok(supplied);
    }

    /** `filters` as the source writes it: the memo is filled before the supplied
        filters are validated, so it keeps a value when they are refused. */
    method FiltersAsWritten() returns (r: Result<map<string, Json>, Error>)
      modifies this`filtersMemo
      ensures old(filtersMemo).Some? ==> r == Ok(old(filtersMemo).value) && filtersMemo == old(filtersMemo)
      ensures old(filtersMemo).None? ==> r == FiltersOf(env, params)
      ensures old(filtersMemo).None? ==> filtersMemo == Some(FiltersLeftBehind(env, params))
    {
      if filtersMemo.Some? {
        return Ok(filtersMemo.value);
      }
      var defaults := CollectDefaultFilters(env.resource.allowedFilters);
      filtersMemo := Some(defaults);
      if !FilterGiven(params) {
        return Ok(defaults);
      }
      var fp := FilterParam(params);
      if !env.config.allowFilter {
        return Err(ParametersNotAllowed(["filter"]));
      }
      if !Iterable(fp) {
        return Err(InvalidFiltersSyntax(fp));
      }
      var supplied, errors := CollectFilters(env, EachPairs(fp));
      filtersMemo := Some(supplied);
      if errors != [] {
        return Err(Aggregate(errors));
      }
      r := Ok(supplied);
    }

    /** `sort_criteria`. */
    method SortCriteria() returns (r: Result<seq<SortCriterion>, Error>)
      requires SortMemoValid()
      modifies this`sortMemo
      ensures SortMemoValid()
      ensures r == SortCriteriaOf(env, params)
      ensures sortMemo == (if r.Ok? then Some(r.value) else old(sortMemo))
    {
      if sortMemo.Some? {
        return Ok(sortMemo.value);
      }
      r := SortCriteriaOf(env, params);
      if r.Ok? {
        sortMemo := Some(r.value);
      }
    }

    /** `include_directives`: nil is not memoised. */
    method IncludeDirectives() returns (r: Result<Option<seq<string>>, Error>)
      requires IncludeMemoValid()
      modifies this`includeMemo
      ensures IncludeMemoValid()
      ensures r == IncludeDirectivesOf(env, params)
      ensures includeMemo == (if r.Ok? && r.value.Some? then r.value else old(includeMemo))
    {
      if includeMemo.Some? {
        return Ok(includeMemo);
      }
      var v := Lookup(params, "include");
      if v == JNull {
        return Ok(None);
      }
      if !env.config.allowInclude {
        return Err(ParametersNotAllowed(["include"]));
      }
      if !v.JStr? {
        return Err(RubyError("NoMethodError"));
      }
      if v.s == "" {
        return Ok(None);
      }
      var paths := RescuingMapLoop(SplitOn(v.s, ','), IncludeCheck(env));
      if paths.Err? {
        return Err(paths.error);
      }
      includeMemo := Some(paths.value);
      r := Ok(includeMemo);
    }

    /** `source_klass`. */
    method SourceKlass() returns (r: Result<ResourceDef, Error>)
      requires SourceMemoValid()
      modifies this`sourceMemo
      ensures SourceMemoValid()
      ensures r == SourceKlassOf(env, params)
      ensures sourceMemo == (if r.Ok? then Some(r.value) else old(sourceMemo))
    {
      if sourceMemo.Some? {
        return Ok(sourceMemo.value);
      }
      r := SourceKlassOf(env, params);
      if r.Ok? {
        sourceMemo := Some(r.value);
      }
    }

    /** `source_id`: nil is not memoised. */
    method SourceId() returns (r: Result<Json, Error>)
      requires SourceMemoValid() && SourceIdMemoValid()
      modifies this`sourceMemo, this`sourceIdMemo
      ensures SourceMemoValid() && SourceIdMemoValid()
      ensures r == SourceIdOf(env, params)
      ensures sourceIdMemo == (if r.Ok? && r.value != JNull then Some(r.value) else old(sourceIdMemo))
    {
      if sourceIdMemo.Some? {
        return Ok(sourceIdMemo.value);
      }
      var source := SourceKlass();
      if source.Err? {
        return Err(source.error);
      }
      var key := Require(params, source.value.parentKey);
      if key.Err? {
        return Err(key.error);
      }
      r := source.value.verifyKey(key.value);
      if r.Ok? && r.value != JNull {
        sourceIdMemo := Some(r.value);
      }
    }

    /** `relationship`: nil is not memoised. */
    method CurrentRelationship() returns (r: Result<Option<Relationship>, Error>)
      requires RelationshipMemoValid()
      modifies this`relationshipMemo
      ensures RelationshipMemoValid()
      ensures r == RelationshipOf(env, params)
      ensures relationshipMemo == (if r.Ok? && r.value.Some? then r.value else old(relationshipMemo))
    {
      if relationshipMemo.Some? {
        return Ok(relationshipMemo);
      }
      r := RelationshipOf(env, params);
      if r.Ok? && r.value.Some? {
        relationshipMemo := r.value;
      }
    }

    /** `verify_permitted_params`: the body as it is left; in warn mode one
        warning per refused key is appended. */
    method VerifyPermittedParams(allowed: seq<string>, obj: Params) returns (r: Result<Params, Error>)
      modifies this`warnings
      ensures var spec := BodyParams.VerifyPermittedParams(env, allowed, obj);
        && (spec.Ok? ==> r == Ok(spec.value.0) && warnings == old(warnings) + spec.value.1)
        && (spec.Err? ==> r == Err(spec.error) && warnings == old(warnings))
    {
      var raiseMode := env.config.raiseIfParametersNotAllowed;
      var permitted := PermitLoop(!raiseMode, FormattedAllowed(env, allowed), obj);
      if permitted.Err? {
        return Err(permitted.error);
      }
      var (kept, reported) := permitted.value;
      if |reported| > 0 && raiseMode {
        return Err(ParametersNotAllowed(reported));
      }
      warnings := warnings + NotAllowedWarnings(reported);
      r := Ok(kept);
    }

    /** `parse_params`. */
    method ParseParams(allowed: seq<string>, obj: Params) returns (r: Result<ParsedParams, Error>)
      modifies this`warnings
      ensures r == BodyParams.ParseParams(env, allowed, obj).result
      ensures warnings == old(warnings) + BodyParams.ParseParams(env, allowed, obj).warnings
    {
      var permitted := VerifyPermittedParams(allowed, obj);
      if permitted.Err? {
        return Err(permitted.error);
      }
      var parsed := ParseEntries(env, permitted.value, ParsedParams([], [], []));
      if parsed.Err? {
        return Err(parsed.error);
      }
      r := Ok(DeepTransform(env.keyFormatter, parsed.value));
    }

    /** `relationship_params`. */
    method RelationshipParams(rel: Relationship) returns (r: Result<ParsedParams, Error>)
      modifies this`warnings
      ensures r == RelationshipParamsOf(env, params, rel).result
      ensures warnings == old(warnings) + RelationshipParamsOf(env, params, rel).warnings
    {
      var data := Fetch(params, "data");
      if data.Err? {
        return Err(data.error);
      }
      r := ParseParams(env.resource.updatableFields, RelationshipBody(env, rel, data.value));
    }

    // ------------------------------------------------------------- reading actions

    method Listing() returns (r: Result<(Option<seq<string>>, seq<SortCriterion>, map<string, seq<string>>), Error>)
      requires IncludeMemoValid() && SortMemoValid() && FieldsMemoValid()
      modifies this`includeMemo, this`sortMemo, this`fieldsMemo
      ensures IncludeMemoValid() && SortMemoValid() && FieldsMemoValid()
      ensures r == ListingOf(env, params)
    {
      var includes := IncludeDirectives();
      if includes.Err? {
        return Err(includes.error);
      }
      var sort := SortCriteria();
      if sort.Err? {
        return Err(sort.error);
      }
      var fields := Fields();
      if fields.Err? {
        return Err(fields.error);
      }
      r := Ok((includes.value, sort.value, fields.value));
    }

    method SetupIndex() returns (r: Result<seq<Operation>, Error>)
      requires FiltersMemoValid() && IncludeMemoValid() && SortMemoValid() && FieldsMemoValid()
      modifies this`filtersMemo, this`includeMemo, this`sortMemo, this`fieldsMemo
      ensures FiltersMemoValid() && IncludeMemoValid() && SortMemoValid() && FieldsMemoValid()
      ensures r == IndexOps(env, params)
    {
      var filters := Filters();
      if filters.Err? {
        return Err(filters.error);
      }
      var listing := Listing();
      if listing.Err? {
        return Err(listing.error);
      }
      var (includes, sort, fields) := listing.value;
      r := Ok([Find(filters.value, includes, sort, fields)]);
    }

    method SetupGetRelatedResource() returns (r: Result<seq<Operation>, Error>)
      requires IncludeMemoValid() && SourceMemoValid() && SourceIdMemoValid() && FieldsMemoValid()
      modifies this`includeMemo, this`sourceMemo, this`sourceIdMemo, this`fieldsMemo
      ensures IncludeMemoValid() && SourceMemoValid() && SourceIdMemoValid() && FieldsMemoValid()
      ensures r == GetRelatedResourceOps(env, params)
    {
      var includes := IncludeDirectives();
      if includes.Err? {
        return Err(includes.error);
      }
      var source := SourceKlass();
      if source.Err? {
        return Err(source.error);
      }
      var sourceId := SourceId();
      if sourceId.Err? {
        return Err(sourceId.error);
      }
      var fields := Fields();
      if fields.Err? {
        return Err(fields.error);
      }
      r := Ok([ShowRelatedResource(Lookup(params, "relationship"), includes.value, source.value.resourceType,
                                   sourceId.value, fields.value)]);
    }

    method SetupGetRelatedResources() returns (r: Result<seq<Operation>, Error>)
      requires SourceMemoValid() && SourceIdMemoValid() && FiltersMemoValid() && IncludeMemoValid() && SortMemoValid() && FieldsMemoValid()
      modifies this`sourceMemo, this`sourceIdMemo, this`filtersMemo, this`includeMemo, this`sortMemo, this`fieldsMemo
      ensures SourceMemoValid() && SourceIdMemoValid() && FiltersMemoValid() && IncludeMemoValid() && SortMemoValid() && FieldsMemoValid()
      ensures r == GetRelatedResourcesOps(env, params)
    {
      var source := SourceKlass();
      if source.Err? {
        return Err(source.error);
      }
      var sourceId := SourceId();
      if sourceId.Err? {
        return Err(sourceId.error);
      }
      var filters := Filters();
      if filters.Err? {
        return Err(filters.error);
      }
      var verified := source.value.verifyFilters(filters.value);
      if verified.Err? {
        return Err(verified.error);
      }
      var listing := Listing();
      if listing.Err? {
        return Err(listing.error);
      }
      var (includes, sort, fields) := listing.value;
      r := Ok([ShowRelatedResources(Lookup(params, "relationship"), source.value.resourceType, sourceId.value,
                                    verified.value, includes, sort, fields)]);
    }

    method SetupShow() returns (r: Result<seq<Operation>, Error>)
      requires IncludeMemoValid() && FieldsMemoValid()
      modifies this`includeMemo, this`fieldsMemo
      ensures IncludeMemoValid() && FieldsMemoValid()
      ensures r == ShowOps(env, params)
    {
      var includes := IncludeDirectives();
      if includes.Err? {
        return Err(includes.error);
      }
      var fields := Fields();
      if fields.Err? {
        return Err(fields.error);
      }
      r := Ok([Show(Lookup(params, "id"), includes.value, fields.value)]);
    }

    method SetupShowRelationship() returns (r: Result<seq<Operation>, Error>)
      ensures r == ShowRelationshipOps(env, params)
    {
      var key := Require(params, env.resource.parentKey);
      if key.Err? {
        return Err(key.error);
      }
      var parent := env.resource.verifyKey(key.value);
      if parent.Err? {
        return Err(parent.error);
      }
      r := Ok([ShowRelationship(Lookup(params, "relationship"), parent.value)]);
    }

    // ------------------------------------------------------------- create and update

    /** The block of `setup_create_action` for one element. */
    method CreateElement(raw: Json) returns (r: Result<Operation, Error>)
      requires FieldsMemoValid()
      modifies this`warnings, this`fieldsMemo
      ensures FieldsMemoValid()
      ensures r == CreateItemOf(env, params, raw).result
      ensures warnings == old(warnings) + CreateItemOf(env, params, raw).warnings
    {
      var t := Index(raw, "type");
      if t.Err? {
        return Err(t.error);
      }
      var typeOk := VerifyType(env, t.value);
      if typeOk.Err? {
        return Err(typeOk.error);
      }
      var data := ParseParams(env.resource.creatableFields, raw.entries);
      if data.Err? {
        return Err(data.error);
      }
      var fields := Fields();
      if fields.Err? {
        return Err(fields.error);
      }
      r := Ok(CreateResource(data.value, fields.value));
    }

    /** The block of `setup_update_action` for one element. */
    method UpdateElement(keys: seq<Json>, checkKeys: bool, raw: Json) returns (r: Result<Operation, Error>)
      requires FieldsMemoValid()
      modifies this`warnings, this`fieldsMemo
      ensures FieldsMemoValid()
      ensures r == UpdateItemOf(env, params, keys, checkKeys, raw).result
      ensures warnings == old(warnings) + UpdateItemOf(env, params, keys, checkKeys, raw).warnings
    {
      var id := Index(raw, "id");
      if id.Err? {
        return Err(id.error);
      }
      if id.value == JNull {
        return Err(MissingKey);
      }
      var key := ToS(id.value);
      if checkKeys && JStr(key) !in keys {
        return Err(KeyNotIncludedInURL(key));
      }
      r := UpdateBody(key, Delete(raw.entries, "id"));
    }

    method UpdateBody(key: string, obj: Params) returns (r: Result<Operation, Error>)
      requires FieldsMemoValid()
      modifies this`warnings, this`fieldsMemo
      ensures FieldsMemoValid()
      ensures r == UpdateBodyOf(env, params, key, obj).result
      ensures warnings == old(warnings) + UpdateBodyOf(env, params, key, obj).warnings
    {
      var typeOk := VerifyType(env, Lookup(obj, "type"));
      if typeOk.Err? {
        return Err(typeOk.error);
      }
      var data := ParseParams(env.resource.updatableFields, obj);
      if data.Err? {
        return Err(data.error);
      }
      var fields := Fields();
      if fields.Err? {
        return Err(fields.error);
      }
      r := Ok(ReplaceFields(key, data.value, fields.value));
    }

    /** One element of a create or update request. */
    method Item(kind: ItemAction, raw: Json) returns (r: Result<Operation, Error>)
      requires FieldsMemoValid()
      modifies this`warnings, this`fieldsMemo
      ensures FieldsMemoValid()
      ensures r == ItemOf(env, params, kind, raw).result
      ensures warnings == old(warnings) + ItemOf(env, params, kind, raw).warnings
    {
      match kind
      case CreateItem => r := CreateElement(raw);
      case UpdateItem(keys, checkKeys) => r := UpdateElement(keys, checkKeys, raw);
    }

    /** One turn of the rescuing loop: the element is tried, its result or its
        failure recorded, its warnings appended. */
    method RescueItem(kind: ItemAction, raw: Json, errors: seq<Error>, results: seq<Operation>)
      returns (errors': seq<Error>, results': seq<Operation>, ghost y: Parsed<Operation>)
      requires FieldsMemoValid()
      modifies this`warnings, this`fieldsMemo
      ensures FieldsMemoValid()
      ensures y == ItemOf(env, params, kind, raw)
      ensures var next := RescueTurn((errors, results, []), y);
        errors' == next.0 && results' == next.1
      ensures warnings == old(warnings) + y.warnings
    {
      y := ItemOf(env, params, kind, raw);
      var item := Item(kind, raw);
      if item.Ok? {
        errors', results' := errors, results + [item.value];
      } else {
        errors', results' := errors + [item.error], results;
      }
    }

    /** `AggregatedError.rescuing_map` over the elements of a create or update
        request: every element tried, warnings appended as they come; `outs` are
        the elements' outcomes. */
    method RescuingItems(kind: ItemAction, items: seq<Json>) returns (r: Result<seq<Operation>, Error>, ghost outs: seq<Parsed<Operation>>)
      requires FieldsMemoValid()
      modifies this`warnings, this`fieldsMemo
      ensures FieldsMemoValid()
      ensures |outs| == |items|
      ensures forall k {:trigger ItemOf(env, params, kind, items[k])} :: 0 <= k < |items| ==> outs[k] == ItemOf(env, params, kind, items[k])
      ensures r == RescueOutcome(Collected(outs)).result
      ensures warnings == old(warnings) + Collected(outs).2
    {
      var results: seq<Operation> := [];
      var errors: seq<Error> := [];
      outs := [];
      var i := 0;
      while i < |items|
        invariant 0 <= i <= |items|
        invariant FieldsMemoValid()
        invariant |outs| == i
        invariant forall k {:trigger ItemOf(env, params, kind, items[k])} :: 0 <= k < i ==> outs[k] == ItemOf(env, params, kind, items[k])
        invariant (errors, results) == (Collected(outs).0, Collected(outs).1)
        invariant warnings == old(warnings) + Collected(outs).2
      {
        ghost var y;
        errors, results, y := RescueItem(kind, items[i], errors, results);
        CollectedSnoc(outs, y);
        AppendAssoc(old(warnings), Collected(outs).2, y.warnings);
        outs := outs + [y];
        i := i + 1;
      }
      if errors == [] {
        r := Ok(results);
      } else {
        r := Err(Aggregate(errors));
      }
    }

    method SetupCreate() returns (r: Result<seq<Operation>, Error>)
      requires FieldsMemoValid()
      modifies this`warnings, this`fieldsMemo
      ensures FieldsMemoValid()
      ensures r == CreateOps(env, params).result
      ensures warnings == old(warnings) + CreateOps(env, params).warnings
    {
      var data := Require(params, "data");
      if data.Err? {
        return Err(data.error);
      }
      ghost var outs;
      r, outs := RescuingItems(CreateItem, Wrap(data.value));
      ItemsOutcome(env, params, CreateItem, Wrap(data.value), outs);
    }

    method SetupUpdate() returns (r: Result<seq<Operation>, Error>)
      requires FieldsMemoValid()
      modifies this`warnings, this`fieldsMemo
      ensures FieldsMemoValid()
      ensures r == UpdateOps(env, params).result
      ensures warnings == old(warnings) + UpdateOps(env, params).warnings
    {
      var data := Require(params, "data");
      if data.Err? {
        return Err(data.error);
      }
      var items := Wrap(data.value);
      var keys := Wrap(Lookup(params, "id"));
      if HasKey(params, "id") && |keys| != |items| {
        return Err(CountMismatch);
      }
      var checkKeys := Lookup(params, "data").JArr? || HasKey(params, "id");
      ghost var outs;
      r, outs := RescuingItems(UpdateItem(keys, checkKeys), items);
      ItemsOutcome(env, params, UpdateItem(keys, checkKeys), items, outs);
    }

    method SetupDestroy() returns (r: Result<seq<Operation>, Error>)
      ensures r == DestroyOps(env, params)
    {
      var raw := Require(params, "id");
      if raw.Err? {
        return Err(raw.error);
      }
      var keys := ParseKeyArray(env, raw.value);
      if keys.Err? {
        return Err(keys.error);
      }
      var ops := RemoveResources(keys.value);
      r := Ok(ops);
    }

    // ------------------------------------------------------------- relationship actions

    method SetupCreateRelationship() returns (r: Result<seq<Operation>, Error>)
      requires RelationshipMemoValid()
      modifies this`warnings, this`relationshipMemo
      ensures RelationshipMemoValid()
      ensures r == CreateRelationshipOps(env, params).result
      ensures warnings == old(warnings) + CreateRelationshipOps(env, params).warnings
    {
      var rel := CurrentRelationship();
      if rel.Err? {
        return Err(rel.error);
      }
      if rel.value.None? || !rel.value.value.toMany {
        return Ok([]);
      }
      var id := Require(params, env.resource.parentKey);
      if id.Err? {
        return Err(id.error);
      }
      var data := RelationshipParams(rel.value.value);
      if data.Err? {
        return Err(data.error);
      }
      r := Ok([CreateToManyRelationship(id.value, rel.value.value.name, FirstValue(data.value.toMany))]);
    }

    method SetupUpdateRelationship() returns (r: Result<seq<Operation>, Error>)
      requires RelationshipMemoValid()
      modifies this`warnings, this`relationshipMemo
      ensures RelationshipMemoValid()
      ensures r == UpdateRelationshipOps(env, params).result
      ensures warnings == old(warnings) + UpdateRelationshipOps(env, params).warnings
    {
      var id := Require(params, env.resource.parentKey);
      if id.Err? {
        return Err(id.error);
      }
      var rel := CurrentRelationship();
      if rel.Err? {
        return Err(rel.error);
      }
      if rel.value.None? {
        return Err(RubyError("NoMethodError"));
      }
      var data := RelationshipParams(rel.value.value);
      if data.Err? {
        return Err(data.error);
      }
      r := ReplaceRelationship(id.value, rel.value.value, data.value);
    }

    method SetupDestroyRelationship() returns (r: Result<seq<Operation>, Error>)
      requires RelationshipMemoValid()
      modifies this`warnings, this`relationshipMemo
      ensures RelationshipMemoValid()
      ensures r == DestroyRelationshipOps(env, params).result
      ensures warnings == old(warnings) + DestroyRelationshipOps(env, params).warnings
    {
      var id := Require(params, env.resource.parentKey);
      if id.Err? {
        return Err(id.error);
      }
      var rel := CurrentRelationship();
      if rel.Err? {
        return Err(rel.error);
      }
      if rel.value.None? {
        return Err(RubyError("NoMethodError"));
      }
      r := RemoveRelationship(id.value, rel.value.value);
    }

    method RemoveRelationship(id: Json, rel: Relationship) returns (r: Result<seq<Operation>, Error>)
      modifies this`warnings
      ensures r == RemoveRelationshipOf(env, params, id, rel).result
      ensures warnings == old(warnings) + RemoveRelationshipOf(env, params, id, rel).warnings
    {
      if !rel.toMany {
        return Ok([RemoveToOneRelationship(id, rel.name)]);
      }
      var data := RelationshipParams(rel);
      if data.Err? {
        return Err(data.error);
      }
      r := RemoveKeys(id, rel, data.value);
    }

    // ------------------------------------------------------------- operations

    /** The setup routine of one action. */
    method Setup(a: Action) returns (r: Result<seq<Operation>, Error>)
      requires Valid()
      modifies this
      ensures Valid()
      ensures r == SetupOf(env, params, a).result
      ensures warnings == old(warnings) + SetupOf(env, params, a).warnings
    {
      match a
      case IndexAction => r := SetupIndex();
      case GetRelatedResourceAction => r := SetupGetRelatedResource();
      case GetRelatedResourcesAction => r := SetupGetRelatedResources();
      case ShowAction => r := SetupShow();
      case ShowRelationshipAction => r := SetupShowRelationship();
      case CreateAction => r := SetupCreate();
      case CreateRelationshipAction => r := SetupCreateRelationship();
      case UpdateRelationshipAction => r := SetupUpdateRelationship();
      case UpdateAction => r := SetupUpdate();
      case DestroyAction => r := SetupDestroy();
      case DestroyRelationshipAction => r := SetupDestroyRelationship();
    }

    /** `operations`: the operations of the action the parameters name, with the
        warnings its parsing appended. */
    method Operations() returns (r: Result<seq<Operation>, Error>)
      requires Valid()
      modifies this
      ensures Valid()
      ensures r == OperationsOf(env, params).result
      ensures warnings == old(warnings) + OperationsOf(env, params).warnings
    {
      var action := Lookup(params, "action");
      var a := ActionOf(action);
      if a.None? {
        return Err(InternalServerError("Invalid action " + Inspect(action)));
      }
      r := Setup(a.value);
    }
  }
}
