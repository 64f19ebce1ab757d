/** What the request parser promises for whole requests: which setup routine an
    action reaches, what each routine returns or raises, when warnings can be
    appended, and how the memoised filters behave when asked twice. */
module RequestRules {
  import opened Values
  import opened Formatter
  import opened Resources
  import opened QueryParams
  import opened BodyParams
  import opened RequestParser

  // ================================================================= dispatch

  /** An action named by one of the setup routines runs that routine. */
  lemma OperationsByName(env: Env, p: Params, a: Action)
    requires Lookup(p, "action") == JStr(ActionName(a))
    ensures OperationsOf(env, p) == SetupOf(env, p, a)
  {
    ActionOfName(a);
  }

  /** Any other action is an internal server error carrying the action's
      `inspect`, and nothing is parsed. */
  lemma InvalidActionRefused(env: Env, p: Params)
    requires forall a: Action :: Lookup(p, "action") != JStr(ActionName(a))
    ensures OperationsOf(env, p) == Parsed(Err(InternalServerError("Invalid action " + Inspect(Lookup(p, "action")))), [])
  {
  }

  // ================================================================= reading actions

  /** An index request without query parameters finds with the default filters,
      no include directives, ascending by id and no sparse fieldsets. */
  lemma IndexDefaults(env: Env, p: Params)
    requires !FilterGiven(p) && Lookup(p, "include") == JNull
    requires Blank(Lookup(p, "sort")) && Lookup(p, "fields") == JNull
    ensures IndexOps(env, p) == Ok([Find(DefaultFilters(env.resource.allowedFilters), None, [SortCriterion("id", Asc)], map[])])
  {
  }

  /** An index request succeeds exactly when its filters, include directives,
      sort criteria and fieldsets are all accepted, and then finds with them; it
      raises the error of the first reader that refuses, in that order. */
  lemma IndexReaders(env: Env, p: Params)
    ensures IndexOps(env, p).Ok? <==>
              FiltersOf(env, p).Ok? && IncludeDirectivesOf(env, p).Ok? && SortCriteriaOf(env, p).Ok? && FieldsOf(env, p).Ok?
    ensures IndexOps(env, p).Ok? ==>
              IndexOps(env, p).value == [Find(FiltersOf(env, p).value, IncludeDirectivesOf(env, p).value,
                                              SortCriteriaOf(env, p).value, FieldsOf(env, p).value)]
    ensures FiltersOf(env, p).Err? ==> IndexOps(env, p) == Err(FiltersOf(env, p).error)
    ensures FiltersOf(env, p).Ok? && IncludeDirectivesOf(env, p).Err? ==> IndexOps(env, p) == Err(IncludeDirectivesOf(env, p).error)
    ensures FiltersOf(env, p).Ok? && IncludeDirectivesOf(env, p).Ok? && SortCriteriaOf(env, p).Err?
            ==> IndexOps(env, p) == Err(SortCriteriaOf(env, p).error)
  {
  }

  /** A listing of related resources finds through the source resource named by
      the request: the source key is the one that resource verifies, and the
      filters are the ones it returns from `verify_filters`. */
  lemma RelatedResourcesThroughSource(env: Env, p: Params)
    requires GetRelatedResourcesOps(env, p).Ok?
    ensures SourceKlassOf(env, p).Ok? && FiltersOf(env, p).Ok?
    ensures |GetRelatedResourcesOps(env, p).value| == 1
    ensures GetRelatedResourcesOps(env, p).value[0].ShowRelatedResources?
    ensures GetRelatedResourcesOps(env, p).value[0].sourceType == SourceKlassOf(env, p).value.resourceType
    ensures SourceKlassOf(env, p).value.verifyKey(Lookup(p, SourceKlassOf(env, p).value.parentKey))
              == Ok(GetRelatedResourcesOps(env, p).value[0].sourceId)
    ensures SourceKlassOf(env, p).value.verifyFilters(FiltersOf(env, p).value)
              == Ok(GetRelatedResourcesOps(env, p).value[0].filters)
  {
  }

  /** A relationship is shown for the parent key the resource verifies; without
      the parent key the request is refused. */
  lemma ShowRelationshipParent(env: Env, p: Params)
    ensures Blank(Lookup(p, env.resource.parentKey)) && Lookup(p, env.resource.parentKey) != JBool(false)
            ==> ShowRelationshipOps(env, p) == Err(ParameterMissing(env.resource.parentKey))
    ensures ShowRelationshipOps(env, p).Ok? ==>
              && env.resource.verifyKey(Lookup(p, env.resource.parentKey)).Ok?
              && ShowRelationshipOps(env, p).value ==
                   [ShowRelationship(Lookup(p, "relationship"), env.resource.verifyKey(Lookup(p, env.resource.parentKey)).value)]
  {
  }

  // ================================================================= create

  /** A create request needs its `data`. */
  lemma CreateNeedsData(env: Env, p: Params)
    requires Blank(Lookup(p, "data")) && Lookup(p, "data") != JBool(false)
    ensures CreateOps(env, p) == Parsed(Err(ParameterMissing("data")), [])
  {
  }

  /** What one created element yields when it passes. */
  lemma CreateItemPasses(env: Env, p: Params, raw: Json)
    requires CreateItemOf(env, p, raw).result.Ok?
    ensures raw.JObj? && VerifyType(env, Lookup(raw.entries, "type")).Ok?
    ensures ParseParams(env, env.resource.creatableFields, raw.entries).result.Ok? && FieldsOf(env, p).Ok?
    ensures CreateItemOf(env, p, raw).result.value ==
              CreateResource(ParseParams(env, env.resource.creatableFields, raw.entries).result.value, FieldsOf(env, p).value)
  {
  }

  /** Each element of `data` becomes one creation, in order, when all pass. */
  lemma CreateOnePerElement(env: Env, p: Params)
    requires CreateOps(env, p).result.Ok?
    ensures Require(p, "data").Ok?
    ensures |CreateOps(env, p).result.value| == |Wrap(Lookup(p, "data"))|
    ensures forall i :: 0 <= i < |Wrap(Lookup(p, "data"))| ==>
              && Wrap(Lookup(p, "data"))[i].JObj?
              && ParseParams(env, env.resource.creatableFields, Wrap(Lookup(p, "data"))[i].entries).result.Ok?
              && CreateOps(env, p).result.value[i] ==
                   CreateResource(ParseParams(env, env.resource.creatableFields, Wrap(Lookup(p, "data"))[i].entries).result.value,
                                  FieldsOf(env, p).value)
  {
    var items := Wrap(Lookup(p, "data"));
    var f := ItemSpec(env, p, CreateItem);
    forall i | 0 <= i < |items|
      ensures Results(f)(items[i]) == CreateItemOf(env, p, items[i]).result
    {
    }
    forall i | 0 <= i < |items|
      ensures && items[i].JObj?
              && ParseParams(env, env.resource.creatableFields, items[i].entries).result.Ok?
              && CreateOps(env, p).result.value[i] ==
                   CreateResource(ParseParams(env, env.resource.creatableFields, items[i].entries).result.value, FieldsOf(env, p).value)
    {
      CreateItemPasses(env, p, items[i]);
    }
  }

  /** An element whose type names another resource is reported as an invalid
      resource, and the request fails. */
  lemma CreateChecksType(env: Env, p: Params, i: nat)
    requires Require(p, "data").Ok? && i < |Wrap(Lookup(p, "data"))|
    requires Wrap(Lookup(p, "data"))[i].JObj?
    requires Lookup(Wrap(Lookup(p, "data"))[i].entries, "type").JStr?
    requires UnformatKey(env.keyFormatter, Lookup(Wrap(Lookup(p, "data"))[i].entries, "type").s) != env.resource.resourceType
    ensures CreateOps(env, p).result.Err?
    ensures Reports(CreateOps(env, p).result.error, InvalidResource(Lookup(Wrap(Lookup(p, "data"))[i].entries, "type")))
  {
    var items := Wrap(Lookup(p, "data"));
    var f := Results(ItemSpec(env, p, CreateItem));
    assert f(items[i]) == CreateItemOf(env, p, items[i]).result;
  }

  /** An element without a type is reported as a missing parameter. */
  lemma CreateNeedsType(env: Env, p: Params, i: nat)
    requires Require(p, "data").Ok? && i < |Wrap(Lookup(p, "data"))|
    requires Wrap(Lookup(p, "data"))[i].JObj?
    requires Lookup(Wrap(Lookup(p, "data"))[i].entries, "type") == JNull
    ensures CreateOps(env, p).result.Err?
    ensures Reports(CreateOps(env, p).result.error, ParameterMissing("type"))
  {
    var items := Wrap(Lookup(p, "data"));
    var f := Results(ItemSpec(env, p, CreateItem));
    assert f(items[i]) == CreateItemOf(env, p, items[i]).result;
  }

  // ================================================================= update

  /** Keys in the URL and elements in the body must be as many. */
  lemma UpdateCountMismatch(env: Env, p: Params)
    requires Require(p, "data").Ok? && HasKey(p, "id")
    requires |UrlKeys(p)| != |Wrap(Lookup(p, "data"))|
    ensures UpdateOps(env, p) == Parsed(Err(CountMismatch), [])
  {
  }

  /** The elements tried by an update that passes the count check. */
  predicate UpdateTried(p: Params, i: nat) {
    && Require(p, "data").Ok?
    && !(HasKey(p, "id") && |UrlKeys(p)| != |Wrap(Lookup(p, "data"))|)
    && i < |Wrap(Lookup(p, "data"))|
    && Wrap(Lookup(p, "data"))[i].JObj?
  }

  /** An element without a key is reported as a missing key. */
  lemma UpdateMissingKey(env: Env, p: Params, i: nat)
    requires UpdateTried(p, i)
    requires Lookup(Wrap(Lookup(p, "data"))[i].entries, "id") == JNull
    ensures UpdateOps(env, p).result.Err?
    ensures Reports(UpdateOps(env, p).result.error, MissingKey)
  {
    var items := Wrap(Lookup(p, "data"));
    var f := Results(ItemSpec(env, p, UpdateItem(UrlKeys(p), KeyCheckRequired(p))));
    assert f(items[i]) == UpdateItemOf(env, p, UrlKeys(p), KeyCheckRequired(p), items[i]).result;
  }

  /** When the URL names keys or the body is an array, an element whose key the URL
      does not name is reported with that key. */
  lemma UpdateKeyMustBeInUrl(env: Env, p: Params, i: nat)
    requires UpdateTried(p, i) && KeyCheckRequired(p)
    requires Lookup(Wrap(Lookup(p, "data"))[i].entries, "id") != JNull
    requires JStr(ToS(Lookup(Wrap(Lookup(p, "data"))[i].entries, "id"))) !in UrlKeys(p)
    ensures UpdateOps(env, p).result.Err?
    ensures Reports(UpdateOps(env, p).result.error, KeyNotIncludedInURL(ToS(Lookup(Wrap(Lookup(p, "data"))[i].entries, "id"))))
  {
    var items := Wrap(Lookup(p, "data"));
    var f := Results(ItemSpec(env, p, UpdateItem(UrlKeys(p), KeyCheckRequired(p))));
    assert f(items[i]) == UpdateItemOf(env, p, UrlKeys(p), KeyCheckRequired(p), items[i]).result;
  }

  /** What one updated element yields when it passes: its key is there (and named
      by the URL when the check applies), and the rest of the element, without the
      key, is parsed against the updatable fields. */
  lemma UpdateItemPasses(env: Env, p: Params, keys: seq<Json>, checkKeys: bool, raw: Json)
    requires UpdateItemOf(env, p, keys, checkKeys, raw).result.Ok?
    ensures raw.JObj? && Lookup(raw.entries, "id") != JNull
    ensures checkKeys ==> JStr(ToS(Lookup(raw.entries, "id"))) in keys
    ensures ParseParams(env, env.resource.updatableFields, Delete(raw.entries, "id")).result.Ok? && FieldsOf(env, p).Ok?
    ensures UpdateItemOf(env, p, keys, checkKeys, raw).result.value ==
              ReplaceFields(ToS(Lookup(raw.entries, "id")),
                            ParseParams(env, env.resource.updatableFields, Delete(raw.entries, "id")).result.value,
                            FieldsOf(env, p).value)
  {
  }

  /** Each element of `data` becomes one replacement of its own key, in order,
      when all pass. */
  lemma UpdateOnePerElement(env: Env, p: Params)
    requires UpdateOps(env, p).result.Ok?
    ensures Require(p, "data").Ok?
    ensures |UpdateOps(env, p).result.value| == |Wrap(Lookup(p, "data"))|
    ensures forall i :: 0 <= i < |Wrap(Lookup(p, "data"))| ==>
              && Wrap(Lookup(p, "data"))[i].JObj?
              && Lookup(Wrap(Lookup(p, "data"))[i].entries, "id") != JNull
              && (KeyCheckRequired(p) ==> JStr(ToS(Lookup(Wrap(Lookup(p, "data"))[i].entries, "id"))) in UrlKeys(p))
              && UpdateOps(env, p).result.value[i].ReplaceFields?
              && UpdateOps(env, p).result.value[i].resourceKey == ToS(Lookup(Wrap(Lookup(p, "data"))[i].entries, "id"))
  {
    var items := Wrap(Lookup(p, "data"));
    var kind := UpdateItem(UrlKeys(p), KeyCheckRequired(p));
    var f := ItemSpec(env, p, kind);
    forall i | 0 <= i < |items|
      ensures Results(f)(items[i]) == UpdateItemOf(env, p, UrlKeys(p), KeyCheckRequired(p), items[i]).result
    {
    }
    forall i | 0 <= i < |items|
      ensures && items[i].JObj?
              && Lookup(items[i].entries, "id") != JNull
              && (KeyCheckRequired(p) ==> JStr(ToS(Lookup(items[i].entries, "id"))) in UrlKeys(p))
              && UpdateOps(env, p).result.value[i].ReplaceFields?
              && UpdateOps(env, p).result.value[i].resourceKey == ToS(Lookup(items[i].entries, "id"))
    {
      UpdateItemPasses(env, p, UrlKeys(p), KeyCheckRequired(p), items[i]);
    }
  }

  // ================================================================= destroy

  /** A destroy request removes one resource per comma-separated key, each as the
      resource verifies it, and fails when any key is refused. */
  lemma DestroyOnePerKey(env: Env, p: Params)
    requires Lookup(p, "id").JStr? && !Blank(Lookup(p, "id"))
    ensures DestroyOps(env, p).Ok? <==>
              forall i :: 0 <= i < |SplitKeys(Lookup(p, "id").s)| ==> env.resource.verifyKey(SplitKeys(Lookup(p, "id").s)[i]).Ok?
    ensures DestroyOps(env, p).Ok? ==>
              && |DestroyOps(env, p).value| == |SplitKeys(Lookup(p, "id").s)|
              && forall i :: 0 <= i < |SplitKeys(Lookup(p, "id").s)| ==>
                   DestroyOps(env, p).value[i] == RemoveResource(env.resource.verifyKey(SplitKeys(Lookup(p, "id").s)[i]).value)
  {
  }

  // ================================================================= relationship actions

  /** Adding to a relationship that is not a to-many one does nothing. */
  lemma CreateRelationshipIgnoresToOne(env: Env, p: Params)
    requires RelationshipOf(env, p).Ok?
    requires RelationshipOf(env, p).value.None? || !RelationshipOf(env, p).value.value.toMany
    ensures CreateRelationshipOps(env, p) == Parsed(Ok([]), [])
  {
  }

  /** The parent key and the current relationship of a relationship action. */
  predicate RelationshipAction(env: Env, p: Params, rel: Relationship) {
    Require(p, env.resource.parentKey).Ok? && RelationshipOf(env, p) == Ok(Some(rel))
  }

  /** Replacing a to-many relationship that does not act as a set is forbidden,
      once its linkage has been parsed. */
  lemma ReplaceToManyNeedsSet(env: Env, p: Params, rel: Relationship)
    requires RelationshipAction(env, p, rel) && rel.toMany && !rel.actsAsSet
    requires RelationshipParamsOf(env, p, rel).result.Ok?
    ensures UpdateRelationshipOps(env, p).result == Err(ToManySetReplacementForbidden)
  {
  }

  /** Replacing a plain to-one relationship replaces it with the key parsed from
      the linkage (nil for a null linkage). */
  lemma ReplaceToOne(env: Env, p: Params, rel: Relationship)
    requires RelationshipAction(env, p, rel) && !rel.toMany && !rel.polymorphic
    requires RelationshipParamsOf(env, p, rel).result.Ok?
    ensures UpdateRelationshipOps(env, p).result ==
              Ok([ReplaceToOneRelationship(Lookup(p, env.resource.parentKey), rel.name,
                                           KeyValue(FirstValue(RelationshipParamsOf(env, p, rel).result.value.toOne)))])
  {
  }

  /** Removing a to-one relationship is one removal, with no body read. */
  lemma DestroyToOneRelationship(env: Env, p: Params, rel: Relationship)
    requires RelationshipAction(env, p, rel) && !rel.toMany
    ensures DestroyRelationshipOps(env, p) == Parsed(Ok([RemoveToOneRelationship(Lookup(p, env.resource.parentKey), rel.name)]), [])
  {
  }

  /** Removing from a to-many relationship is one removal per linked key, in
      order. */
  lemma DestroyToManyRelationship(env: Env, p: Params, rel: Relationship)
    requires RelationshipAction(env, p, rel) && rel.toMany
    requires RelationshipParamsOf(env, p, rel).result.Ok?
    requires FirstValue(RelationshipParamsOf(env, p, rel).result.value.toMany).Some?
    ensures DestroyRelationshipOps(env, p).result.Ok?
    ensures |DestroyRelationshipOps(env, p).result.value| == |FirstValue(RelationshipParamsOf(env, p, rel).result.value.toMany).value|
    ensures forall i :: 0 <= i < |FirstValue(RelationshipParamsOf(env, p, rel).result.value.toMany).value| ==>
              DestroyRelationshipOps(env, p).result.value[i] ==
                RemoveToManyRelationship(Lookup(p, env.resource.parentKey), rel.name,
                                         FirstValue(RelationshipParamsOf(env, p, rel).result.value.toMany).value[i])
  {
  }

  /** Updating or removing a relationship the resource does not declare reads
      `name` of nil. */
  lemma UndeclaredRelationshipCrashes(env: Env, p: Params)
    requires Require(p, env.resource.parentKey).Ok? && RelationshipOf(env, p) == Ok(None)
    ensures UpdateRelationshipOps(env, p) == Parsed(Err(RubyError("NoMethodError")), [])
    ensures DestroyRelationshipOps(env, p) == Parsed(Err(RubyError("NoMethodError")), [])
  {
  }

  // ================================================================= warnings

  /** In raise mode `parse_params` never appends a warning. */
  lemma ParseParamsRaiseModeSilent(env: Env, allowed: seq<string>, obj: Params)
    requires env.config.raiseIfParametersNotAllowed
    ensures ParseParams(env, allowed, obj).warnings == []
  {
  }

  /** In raise mode no element of a create or update request appends a warning. */
  lemma ItemRaiseModeSilent(env: Env, p: Params, kind: ItemAction, raw: Json)
    requires env.config.raiseIfParametersNotAllowed
    ensures ItemOf(env, p, kind, raw).warnings == []
  {
    if raw.JObj? {
      match kind
      case CreateItem =>
        ParseParamsRaiseModeSilent(env, env.resource.creatableFields, raw.entries);
      case UpdateItem(_, _) =>
        ParseParamsRaiseModeSilent(env, env.resource.updatableFields, Delete(raw.entries, "id"));
    }
  }

  /** In raise mode the elements of a create or update request append no
      warnings between them. */
  lemma ItemsRaiseModeSilent(env: Env, p: Params, kind: ItemAction, items: seq<Json>)
    requires env.config.raiseIfParametersNotAllowed
    ensures RescuingMapW(items, ItemSpec(env, p, kind)).warnings == []
  {
    var f := ItemSpec(env, p, kind);
    forall i | 0 <= i < |items|
      ensures f(items[i]).warnings == []
    {
      ItemRaiseModeSilent(env, p, kind, items[i]);
    }
    AllWarningsNone(items, f);
  }

  /** In raise mode parsing a relationship's linkage appends no warnings. */
  lemma RelationshipParamsRaiseModeSilent(env: Env, p: Params, rel: Relationship)
    requires env.config.raiseIfParametersNotAllowed
    ensures RelationshipParamsOf(env, p, rel).warnings == []
  {
    if HasKey(p, "data") {
      ParseParamsRaiseModeSilent(env, env.resource.updatableFields, RelationshipBody(env, rel, Lookup(p, "data")));
    }
  }

  lemma CreateRaiseModeSilent(env: Env, p: Params)
    requires env.config.raiseIfParametersNotAllowed
    ensures CreateOps(env, p).warnings == []
  {
    ItemsRaiseModeSilent(env, p, CreateItem, Wrap(Lookup(p, "data")));
  }

  lemma UpdateRaiseModeSilent(env: Env, p: Params)
    requires env.config.raiseIfParametersNotAllowed
    ensures UpdateOps(env, p).warnings == []
  {
    ItemsRaiseModeSilent(env, p, UpdateItem(UrlKeys(p), KeyCheckRequired(p)), Wrap(Lookup(p, "data")));
  }

  /** In raise mode the relationship actions append no warnings. */
  lemma RelationshipActionsRaiseModeSilent(env: Env, p: Params)
    requires env.config.raiseIfParametersNotAllowed
    ensures CreateRelationshipOps(env, p).warnings == []
    ensures UpdateRelationshipOps(env, p).warnings == []
    ensures DestroyRelationshipOps(env, p).warnings == []
  {
    match RelationshipOf(env, p)
    case Ok(Some(rel)) =>
      RelationshipParamsRaiseModeSilent(env, p, rel);
      assert RemoveRelationshipOf(env, p, Lookup(p, env.resource.parentKey), rel).warnings == [];
    case _ =>
  }

  /** In raise mode a request appends no warnings, whatever its action: every
      parameter that is not allowed is raised instead. */
  lemma RaiseModeNoWarnings(env: Env, p: Params)
    requires env.config.raiseIfParametersNotAllowed
    ensures OperationsOf(env, p).warnings == []
  {
    match ActionOf(Lookup(p, "action"))
    case None =>
    case Some(a) =>
      match a
      case CreateAction => CreateRaiseModeSilent(env, p);
      case UpdateAction => UpdateRaiseModeSilent(env, p);
      case CreateRelationshipAction => RelationshipActionsRaiseModeSilent(env, p);
      case UpdateRelationshipAction => RelationshipActionsRaiseModeSilent(env, p);
      case DestroyRelationshipAction => RelationshipActionsRaiseModeSilent(env, p);
      case _ =>
  }

  // ================================================================= the filters memo

  /** Once the filters are accepted, what the source leaves in the memo is what it
      returns. */
  lemma FiltersLeftBehindOnSuccess(env: Env, p: Params)
    requires FiltersOf(env, p).Ok?
    ensures FiltersLeftBehind(env, p) == FiltersOf(env, p).value
  {
  }

  /** A sample request refused for its filters: a filter parameter while filtering
      is switched off, on a resource with no allowed filters. */
  function RefusedFilterEnv(): Env {
    Env(UnderscoredKeyFormatter,
        Config(true, false, true, true),
        ResourceDef("posts", "", [], map[], [], {}, [], [], "post_id", map[],
                    k => Ok(k), filters => Ok(filters)),
        map[])
  }

  function RefusedFilterParams(): Params {
    [("filter", JObj([("name", JStr("x"))]))]
  }

  /** The request is refused, but the memo the source leaves behind holds the
      (empty) defaults, which a later call returns as if the filters were fine. */
  lemma FiltersMemoKeepsRefusedRequest()
    ensures FiltersOf(RefusedFilterEnv(), RefusedFilterParams()) == Err(ParametersNotAllowed(["filter"]))
    ensures FiltersLeftBehind(RefusedFilterEnv(), RefusedFilterParams()) == map[]
  {
    assert Lookup(RefusedFilterParams(), "filter") == JObj([("name", JStr("x"))]);
  }

  /** `filters` asked twice as the source writes it: the second call returns the
      memo the first left behind, which is not the first call's error. */
  method FiltersTwiceAsWritten(env: Env, p: Params) returns (first: Result<map<string, Json>, Error>, second: Result<map<string, Json>, Error>)
    ensures first == FiltersOf(env, p)
    ensures second == Ok(FiltersLeftBehind(env, p))
  {
    var parser := new Parser(env, p);
    first := parser.FiltersAsWritten();
    second := parser.FiltersAsWritten();
  }

  /** `filters` asked twice with the memo set only once the filters are accepted:
      both calls give the same answer. */
  method FiltersTwice(env: Env, p: Params) returns (first: Result<map<string, Json>, Error>, second: Result<map<string, Json>, Error>)
    ensures first == FiltersOf(env, p) && second == first
  {
    var parser := new Parser(env, p);
    first := parser.Filters();
    second := parser.Filters();
  }
}
