/** The query-string side of the request parser (lib/jsonapi/request_parser.rb):
    sort criteria, filters, sparse fieldsets and include paths, as functions of the
    parser's environment and the request parameters. The parser class memoises
    these; the methods here are the loops the source runs to fill its hashes. */
module QueryParams {
  import opened Values
  import opened Strings
  import opened Inflector
  import opened Formatter
  import opened Resources

  // ================================================================= sort

  datatype Direction = Asc | Desc

  datatype SortCriterion = SortCriterion(field: string, direction: Direction)

  /** One comma token of `sort`: a leading '-' is stripped and means descending. */
  function Criterion(kf: FormatterClass, token: string): (c: SortCriterion)
    ensures c.direction == Desc <==> |token| > 0 && token[0] == '-'
  {
    if |token| > 0 && token[0] == '-' then SortCriterion(UnformatKey(kf, token[1..]), Desc)
    else SortCriterion(UnformatKey(kf, token), Asc)
  }

  /** The token a client writes for a criterion. */
  function TokenOf(kf: FormatterClass, c: SortCriterion): string {
    (if c.direction == Desc then "-" else "") + FormatKey(kf, c.field)
  }

  /** Writing a criterion and reading it back gives it again, whenever the key
      formatter round-trips the field and an ascending field does not itself start
      with '-'. */
  lemma SortTokenRoundTrip(kf: FormatterClass, c: SortCriterion)
    requires UnformatKey(kf, FormatKey(kf, c.field)) == c.field
    requires c.direction == Asc ==> FormatKey(kf, c.field) == [] || FormatKey(kf, c.field)[0] != '-'
    ensures Criterion(kf, TokenOf(kf, c)) == c
  {
    var t := TokenOf(kf, c);
    if c.direction == Desc {
      assert t[1..] == FormatKey(kf, c.field);
    } else {
      assert t == FormatKey(kf, c.field);
    }
  }

  /** A token is accepted when CSV gave a string for it (an empty field is nil) and
      its field is sortable. */
  predicate TokenAccepted(env: Env, token: string) {
    token != "" && Criterion(env.keyFormatter, token).field in env.resource.sortableFields
  }

  function TokenError(env: Env, token: string): Error {
    if token == "" then RubyError("NoMethodError")
    else InvalidSortCriteria(FormatKey(env.keyFormatter, env.resource.resourceType),
                             Criterion(env.keyFormatter, token).field)
  }

  /** The per-token `map` of `sort_criteria`: one criterion per token in order, or
      the error of the first token that is refused. */
  function SortTokens(env: Env, tokens: seq<string>): (r: Result<seq<SortCriterion>, Error>)
    ensures r.Ok? <==> forall i :: 0 <= i < |tokens| ==> TokenAccepted(env, tokens[i])
    ensures r.Ok? ==> |r.value| == |tokens|
    ensures r.Ok? ==> forall i :: 0 <= i < |tokens| ==> r.value[i] == Criterion(env.keyFormatter, tokens[i])
    ensures r.Err? ==> exists i :: 0 <= i < |tokens| && !TokenAccepted(env, tokens[i])
                        && (forall j :: 0 <= j < i ==> TokenAccepted(env, tokens[j]))
                        && r.error == TokenError(env, tokens[i])
  {
    if tokens == [] then Ok([])
    else if !TokenAccepted(env, tokens[0]) then Err(TokenError(env, tokens[0]))
    else
      match SortTokens(env, tokens[1..])
      case Err(e) =>
        assert forall i :: 1 <= i < |tokens| ==> tokens[i] == tokens[1..][i - 1];
        Err(e)
      case Ok(rest) =>
        assert forall i :: 1 <= i < |tokens| ==> tokens[i] == tokens[1..][i - 1];
        Ok([Criterion(env.keyFormatter, tokens[0])] + rest)
  }

  /** `sort_criteria`: id ascending when `sort` is not present; otherwise the
      feature switch, then the comma tokens. */
  function SortCriteriaOf(env: Env, p: Params): (r: Result<seq<SortCriterion>, Error>)
    ensures Blank(Lookup(p, "sort")) ==> r == Ok([SortCriterion("id", Asc)])
    ensures !Blank(Lookup(p, "sort")) && !env.config.allowSort ==> r == Err(ParametersNotAllowed(["sort"]))
    ensures !Blank(Lookup(p, "sort")) && env.config.allowSort && Lookup(p, "sort").JStr?
            ==> r == SortTokens(env, SplitOn(Lookup(p, "sort").s, ','))
  {
    var v := Lookup(p, "sort");
    if Blank(v) then Ok([SortCriterion("id", Asc)])
    else if !env.config.allowSort then Err(ParametersNotAllowed(["sort"]))
    else match v
      case JStr(s) => SortTokens(env, SplitOn(s, ','))
      case _ => Err(RubyError("NoMethodError"))
  }

  // ================================================================= filters

  /** `each do |key, value|` on an array element: an array is destructured into its
      first two items; anything else is the key, with a nil value. */
  function Destructure(item: Json): (Json, Json) {
    match item
    case JArr(xs) => (if |xs| > 0 then xs[0] else JNull, if |xs| > 1 then xs[1] else JNull)
    case _ => (item, JNull)
  }

  /** The pairs `each` yields on the filter parameter. */
  function EachPairs(v: Json): (r: seq<(Json, Json)>)
    requires v.JObj? || v.JArr?
    ensures v.JObj? ==> |r| == |v.entries| && forall i :: 0 <= i < |r| ==> r[i] == (JStr(v.entries[i].0), v.entries[i].1)
  {
    match v
    case JObj(entries) => seq(|entries|, i requires 0 <= i < |entries| => (JStr(entries[i].0), entries[i].1))
    case JArr(items) => seq(|items|, i requires 0 <= i < |items| => Destructure(items[i]))
  }

  predicate Iterable(v: Json) {
    v.JObj? || v.JArr?
  }

  /** A filter's `default` option is set and is not nil (an option absent and an
      option given as nil read the same). */
  predicate HasDefault(opt: Option<Json>) {
    opt.Some? && opt.value != JNull
  }

  /** The defaults loop of `filters`: every allowed filter with a non-nil default;
      a filter already given a default keeps it. */
  function DefaultFilters(allowed: seq<(string, Option<Json>)>): (m: map<string, Json>)
    ensures forall f :: f in m <==> exists i :: 0 <= i < |allowed| && allowed[i].0 == f && HasDefault(allowed[i].1)
    ensures forall f :: f in m ==> m[f] != JNull && exists i :: 0 <= i < |allowed| && allowed[i] == (f, Some(m[f]))
    decreases |allowed|
  {
    if allowed == [] then map[]
    else
      var init := allowed[..|allowed| - 1];
      var last := allowed[|allowed| - 1];
      assert forall i :: 0 <= i < |init| ==> init[i] == allowed[i];
      var m := DefaultFilters(init);
      if !HasDefault(last.1) || last.0 in m then m else m[last.0 := last.1.value]
  }

  /** One supplied filter: its unformatted name must be an allowed filter. */
  function FilterCheck(env: Env, pair: (Json, Json)): (r: Result<(string, Json), Error>)
    ensures r.Ok? <==> (var name := UnformatKeyJson(env.keyFormatter, pair.0);
                        name.Some? && AllowedFilter(env.resource, name.value))
    ensures r.Ok? ==> r.value == (UnformatKeyJson(env.keyFormatter, pair.0).value, pair.1)
    ensures r.Err? ==> r.error == FilterNotAllowed(UnformatKeyJson(env.keyFormatter, pair.0))
  {
    var name := UnformatKeyJson(env.keyFormatter, pair.0);
    if name.Some? && AllowedFilter(env.resource, name.value) then Ok((name.value, pair.1))
    else Err(FilterNotAllowed(name))
  }

  function FilterFailure(env: Env): ((Json, Json)) -> Result<(string, Json), Error> {
    pair => FilterCheck(env, pair)
  }

  /** The filters the supplied loop stores, in order (those that pass the check). */
  function AcceptedFilters(env: Env, pairs: seq<(Json, Json)>): seq<(string, Json)> {
    Successes(pairs, FilterFailure(env))
  }

  /** Only allowed filters are stored. */
  lemma AcceptedFiltersAllowed(env: Env, pairs: seq<(Json, Json)>)
    ensures forall k :: 0 <= k < |AcceptedFilters(env, pairs)| ==> AllowedFilter(env.resource, AcceptedFilters(env, pairs)[k].0)
  {
    var f := FilterFailure(env);
    var acc := AcceptedFilters(env, pairs);
    SuccessesFrom(pairs, f);
    forall k | 0 <= k < |acc|
      ensures AllowedFilter(env.resource, acc[k].0)
    {
      var i :| 0 <= i < |pairs| && f(pairs[i]) == Ok(acc[k]);
      assert f(pairs[i]) == FilterCheck(env, pairs[i]);
    }
  }

  /** The filter parameter, as the source reads it. */
  function FilterParam(p: Params): Json {
    Lookup(p, "filter")
  }

  /** The filter parameter is given (the source tests its truthiness). */
  predicate FilterGiven(p: Params) {
    FilterParam(p) != JNull && FilterParam(p) != JBool(false)
  }

  /** `filters`, computed afresh: defaults when no filter is given; otherwise the
      switch, the syntax check, and the supplied filters alone, every pair checked
      before the failures are raised together. */
  function FiltersOf(env: Env, p: Params): Result<map<string, Json>, Error> {
    var fp := FilterParam(p);
    if !FilterGiven(p) then Ok(DefaultFilters(env.resource.allowedFilters))
    else if !env.config.allowFilter then Err(ParametersNotAllowed(["filter"]))
    else if !Iterable(fp) then Err(InvalidFiltersSyntax(fp))
    else
      var pairs := EachPairs(fp);
      var es := Failures(pairs, FilterFailure(env));
      if es == [] then Ok(ToMap(AcceptedFilters(env, pairs))) else Err(Aggregate(es))
  }

  /** Without a filter parameter: exactly the allowed filters that have a default,
      each with its default. */
  lemma FiltersWithoutParam(env: Env, p: Params)
    requires !FilterGiven(p)
    ensures FiltersOf(env, p).Ok?
    ensures var allowed := env.resource.allowedFilters;
      forall f :: f in FiltersOf(env, p).value <==> exists i :: 0 <= i < |allowed| && allowed[i].0 == f && HasDefault(allowed[i].1)
    ensures var allowed := env.resource.allowedFilters;
      forall f :: f in FiltersOf(env, p).value ==>
        FiltersOf(env, p).value[f] != JNull && exists i :: 0 <= i < |allowed| && allowed[i] == (f, Some(FiltersOf(env, p).value[f]))
  {
  }

  /** A given filter parameter with the feature switched off, or one that cannot be
      iterated, is refused before any filter is looked at. */
  lemma FiltersRefused(env: Env, p: Params)
    requires FilterGiven(p)
    ensures !env.config.allowFilter ==> FiltersOf(env, p) == Err(ParametersNotAllowed(["filter"]))
    ensures env.config.allowFilter && !Iterable(FilterParam(p)) ==> FiltersOf(env, p) == Err(InvalidFiltersSyntax(FilterParam(p)))
  {
  }

  /** Every supplied filter that is not allowed is reported. */
  lemma FilterNotAllowedReported(env: Env, p: Params, i: nat)
    requires FilterGiven(p) && env.config.allowFilter && Iterable(FilterParam(p))
    requires i < |EachPairs(FilterParam(p))| && FilterCheck(env, EachPairs(FilterParam(p))[i]).Err?
    ensures FiltersOf(env, p).Err?
    ensures Reports(FiltersOf(env, p).error, FilterNotAllowed(UnformatKeyJson(env.keyFormatter, EachPairs(FilterParam(p))[i].0)))
  {
    var pairs := EachPairs(FilterParam(p));
    var f := FilterFailure(env);
    var es := Failures(pairs, f);
    assert f(pairs[i]) == FilterCheck(env, pairs[i]);
    assert f(pairs[i]).error in es;
    assert FiltersOf(env, p) == Err(Aggregate(es));
  }

  /** With a filter parameter whose names are all allowed, the defaults are gone:
      the result holds exactly the supplied names, unformatted, each with the value
      supplied last for it. */
  lemma FiltersSupplied(env: Env, p: Params)
    requires FilterGiven(p) && env.config.allowFilter && Iterable(FilterParam(p))
    requires forall i :: 0 <= i < |EachPairs(FilterParam(p))| ==> FilterCheck(env, EachPairs(FilterParam(p))[i]).Ok?
    ensures FiltersOf(env, p).Ok?
    ensures var pairs := EachPairs(FilterParam(p));
      forall f :: f in FiltersOf(env, p).value <==>
        exists i :: 0 <= i < |pairs| && UnformatKeyJson(env.keyFormatter, pairs[i].0) == Some(f)
    ensures var pairs := EachPairs(FilterParam(p));
      forall i :: 0 <= i < |pairs| && (forall j :: i < j < |pairs| ==> UnformatKeyJson(env.keyFormatter, pairs[j].0) != UnformatKeyJson(env.keyFormatter, pairs[i].0))
        ==> FiltersOf(env, p).value[UnformatKeyJson(env.keyFormatter, pairs[i].0).value] == pairs[i].1
  {
    var pairs := EachPairs(FilterParam(p));
    SuppliedFilterEntries(env, pairs);
    SuppliedFilterNames(env, pairs);
    SuppliedFilterValues(env, pairs);
    assert FiltersOf(env, p) == Ok(ToMap(AcceptedFilters(env, pairs)));
  }

  /** When every pair passes, nothing is raised and each pair is stored under its
      unformatted name. */
  lemma SuppliedFilterEntries(env: Env, pairs: seq<(Json, Json)>)
    requires forall i :: 0 <= i < |pairs| ==> FilterCheck(env, pairs[i]).Ok?
    ensures Failures(pairs, FilterFailure(env)) == []
    ensures |AcceptedFilters(env, pairs)| == |pairs|
    ensures forall i :: 0 <= i < |pairs| ==>
              && UnformatKeyJson(env.keyFormatter, pairs[i].0).Some?
              && AcceptedFilters(env, pairs)[i] == (UnformatKeyJson(env.keyFormatter, pairs[i].0).value, pairs[i].1)
  {
    var f := FilterFailure(env);
    var kf := env.keyFormatter;
    var acc := AcceptedFilters(env, pairs);
    forall i | 0 <= i < |pairs|
      ensures f(pairs[i]) == FilterCheck(env, pairs[i])
    {
    }
    SuccessesAll(pairs, f);
  }

  /** The hash the supplied-filters loop fills when every pair passes holds
      exactly the unformatted names supplied. */
  lemma SuppliedFilterNames(env: Env, pairs: seq<(Json, Json)>)
    requires forall i :: 0 <= i < |pairs| ==> FilterCheck(env, pairs[i]).Ok?
    ensures forall f :: f in ToMap(AcceptedFilters(env, pairs)) <==>
              exists i :: 0 <= i < |pairs| && UnformatKeyJson(env.keyFormatter, pairs[i].0) == Some(f)
  {
    var kf := env.keyFormatter;
    var acc := AcceptedFilters(env, pairs);
    SuppliedFilterEntries(env, pairs);
    ToMapSpec(acc);
    var m := ToMap(acc);
    forall k | k in m
      ensures exists i :: 0 <= i < |pairs| && UnformatKeyJson(kf, pairs[i].0) == Some(k)
    {
      var i :| 0 <= i < |acc| && acc[i].0 == k;
      assert UnformatKeyJson(kf, pairs[i].0) == Some(k);
    }
    forall k | exists i :: 0 <= i < |pairs| && UnformatKeyJson(kf, pairs[i].0) == Some(k)
      ensures k in m
    {
      var i :| 0 <= i < |pairs| && UnformatKeyJson(kf, pairs[i].0) == Some(k);
      assert acc[i].0 == k;
    }
  }

  /** Each name supplied holds the value of the last pair that gives it. */
  lemma SuppliedFilterValues(env: Env, pairs: seq<(Json, Json)>)
    requires forall i :: 0 <= i < |pairs| ==> FilterCheck(env, pairs[i]).Ok?
    ensures forall i :: 0 <= i < |pairs| && (forall j :: i < j < |pairs| ==> UnformatKeyJson(env.keyFormatter, pairs[j].0) != UnformatKeyJson(env.keyFormatter, pairs[i].0))
              ==> && UnformatKeyJson(env.keyFormatter, pairs[i].0).Some?
                  && UnformatKeyJson(env.keyFormatter, pairs[i].0).value in ToMap(AcceptedFilters(env, pairs))
                  && ToMap(AcceptedFilters(env, pairs))[UnformatKeyJson(env.keyFormatter, pairs[i].0).value] == pairs[i].1
  {
    var kf := env.keyFormatter;
    var acc := AcceptedFilters(env, pairs);
    SuppliedFilterEntries(env, pairs);
    ToMapSpec(acc);
    var m := ToMap(acc);
    forall i | 0 <= i < |pairs| && (forall j :: i < j < |pairs| ==> UnformatKeyJson(kf, pairs[j].0) != UnformatKeyJson(kf, pairs[i].0))
      ensures UnformatKeyJson(kf, pairs[i].0).Some? && UnformatKeyJson(kf, pairs[i].0).value in m && m[UnformatKeyJson(kf, pairs[i].0).value] == pairs[i].1
    {
      forall j | i < j < |acc|
        ensures acc[j].0 != acc[i].0
      {
        assert UnformatKeyJson(kf, pairs[j].0) != UnformatKeyJson(kf, pairs[i].0);
      }
      assert m[acc[i].0] == acc[i].1;
    }
  }

  /** The supplied-filters loop of `filters` (every pair checked, accepted ones
      stored in the hash, refused ones collected). */
  method CollectFilters(env: Env, pairs: seq<(Json, Json)>) returns (filters: map<string, Json>, errors: seq<Error>)
    ensures filters == ToMap(AcceptedFilters(env, pairs))
    ensures errors == Failures(pairs, FilterFailure(env))
  {
    filters, errors := map[], [];
    var i := 0;
    while i < |pairs|
      invariant 0 <= i <= |pairs|
      invariant filters == ToMap(AcceptedFilters(env, pairs[..i]))
      invariant errors == Failures(pairs[..i], FilterFailure(env))
    {
      FailuresSnoc(pairs, i, FilterFailure(env));
      SuccessesSnoc(pairs, i, FilterFailure(env));
      var check := FilterCheck(env, pairs[i]);
      if check.Ok? {
        assert AcceptedFilters(env, pairs[..i + 1]) == AcceptedFilters(env, pairs[..i]) + [check.value];
        ToMapSnoc(AcceptedFilters(env, pairs[..i]), check.value);
        filters := filters[check.value.0 := check.value.1];
        assert filters == ToMap(AcceptedFilters(env, pairs[..i + 1]));
      } else {
        assert AcceptedFilters(env, pairs[..i]) + [] == AcceptedFilters(env, pairs[..i]);
        assert AcceptedFilters(env, pairs[..i + 1]) == AcceptedFilters(env, pairs[..i]);
        errors := errors + [check.error];
      }
      i := i + 1;
    }
    assert pairs[..i] == pairs;
  }

  /** The defaults loop of `filters`. */
  method CollectDefaultFilters(allowed: seq<(string, Option<Json>)>) returns (filters: map<string, Json>)
    ensures filters == DefaultFilters(allowed)
  {
    filters := map[];
    var i := 0;
    while i < |allowed|
      invariant 0 <= i <= |allowed|
      invariant filters == DefaultFilters(allowed[..i])
    {
      assert allowed[..i + 1][..i] == allowed[..i];
      var (name, default) := allowed[i];
      if HasDefault(default) && name !in filters {
        filters := filters[name := default.value];
      }
      i := i + 1;
    }
    assert allowed[..i] == allowed;
  }

  // ================================================================= fields

  /** `value.split(',')` on a string: one string per piece of Ruby's split. */
  function SplitKeys(s: string): (r: seq<Json>)
    ensures |r| == |RubySplit(s, ',')|
    ensures forall i :: 0 <= i < |r| ==> r[i] == JStr(RubySplit(s, ',')[i])
  {
    var pieces := RubySplit(s, ',');
    seq(|pieces|, i requires 0 <= i < |pieces| => JStr(pieces[i]))
  }

  /** `value.split(',')` on an array, as Active Support's `Array#split` does it: the
      runs of items between elements equal to ",", each an array; never empty. */
  function ArraySplit(items: seq<Json>): (r: seq<Json>)
    ensures |r| == |SplitOn(items, JStr(","))| >= 1
    ensures forall i :: 0 <= i < |r| ==> r[i] == JArr(SplitOn(items, JStr(","))[i])
  {
    var pieces := SplitOn(items, JStr(","));
    seq(|pieces|, i requires 0 <= i < |pieces| => JArr(pieces[i]))
  }

  /** One `fields[type]` value as the extraction loop reads it: nil or empty means
      no list (reported later as the field 'nil'); a string or an array is split on
      ","; a value without `empty?` or `split` raises. */
  function FieldList(v: Json): (r: Result<Option<seq<Json>>, Error>)
    ensures r == Ok(None) <==> v in {JNull, JStr(""), JArr([]), JObj([])}
    ensures r.Err? <==> v.JBool? || v.JInt? || (v.JObj? && v.entries != [])
    ensures r.Err? ==> r.error == RubyError("NoMethodError")
    ensures v.JStr? && v.s != "" ==> r == Ok(Some(SplitKeys(v.s)))
    ensures v.JArr? && v.items != [] ==> r == Ok(Some(ArraySplit(v.items)))
  {
    match v
    case JNull => Ok(None)
    case JStr(s) => if s == "" then Ok(None) else Ok(Some(SplitKeys(s)))
    case JArr(items) => if items == [] then Ok(None) else Ok(Some(ArraySplit(items)))
    case JObj(entries) => if entries == [] then Ok(None) else Err(RubyError("NoMethodError"))
    case _ => Err(RubyError("NoMethodError"))
  }

  /** The extraction loop: type name and field list, in order. */
  function ExtractFields(entries: seq<(string, Json)>): (r: Result<seq<(string, Option<seq<Json>>)>, Error>)
    ensures r.Ok? ==> |r.value| == |entries|
    ensures r.Ok? ==> forall i :: 0 <= i < |entries| ==>
                        (FieldList(entries[i].1).Ok? && r.value[i] == (entries[i].0, FieldList(entries[i].1).value))
  {
    if entries == [] then Ok([])
    else
      var first :- FieldList(entries[0].1);
      var rest :- ExtractFields(entries[1..]);
      assert forall i :: 1 <= i < |entries| ==> entries[i] == entries[1..][i - 1];
      Ok([(entries[0].0, first)] + rest)
  }

  /** `type_resource.fields.collect { |key| format_key(key) }`. */
  function FormattedNames(kf: FormatterClass, names: seq<string>): set<string> {
    set i | 0 <= i < |names| :: FormatKey(kf, names[i])
  }

  /** `valid_fields.include?(field)`: only a string can be one of the names. */
  predicate ValidField(field: Json, valid: set<string>) {
    field.JStr? && field.s in valid
  }

  /** `i` is the first requested field that is not valid. */
  predicate FirstInvalid(requested: seq<Json>, valid: set<string>, i: int) {
    && 0 <= i < |requested|
    && !ValidField(requested[i], valid)
    && forall j :: 0 <= j < i ==> ValidField(requested[j], valid)
  }

  /** The requested fields of one type: each must be a formatted field name; the
      result is their unformatted names, and the first one that is not a field
      name is the one reported. */
  function CheckFieldNames(kf: FormatterClass, typ: string, requested: seq<Json>, valid: set<string>)
    : (r: Result<seq<string>, Error>)
    ensures r.Ok? <==> forall i :: 0 <= i < |requested| ==> ValidField(requested[i], valid)
    ensures r.Ok? ==> |r.value| == |requested| && forall i :: 0 <= i < |requested| ==>
                        requested[i].JStr? && r.value[i] == UnformatKey(kf, requested[i].s)
    ensures r.Err? ==> exists i :: FirstInvalid(requested, valid, i) && r.error == InvalidField(typ, requested[i])
  {
    if requested == [] then Ok([])
    else if !ValidField(requested[0], valid) then
      assert FirstInvalid(requested, valid, 0);
      Err(InvalidField(typ, requested[0]))
    else
      assert forall i :: 1 <= i < |requested| ==> requested[i] == requested[1..][i - 1];
      match CheckFieldNames(kf, typ, requested[1..], valid)
      case Err(e) =>
        var i :| FirstInvalid(requested[1..], valid, i) && e == InvalidField(typ, requested[1..][i]);
        assert FirstInvalid(requested, valid, i + 1);
        Err(e)
      case Ok(rest) =>
        Ok([UnformatKey(kf, requested[0].s)] + rest)
  }

  /** The resource a `fields` type key names: the module path and the unformatted key. */
  function TypeName(env: Env, typ: string): string {
    env.resource.modulePath + UnformatKey(env.keyFormatter, typ)
  }

  /** A type key in formatted form that names a known resource. */
  predicate KnownType(env: Env, typ: string) {
    typ == FormatKey(env.keyFormatter, typ) && TypeName(env, typ) in env.registry
  }

  /** The formatted field names of the resource a known type key names. */
  function TypeFields(env: Env, typ: string): set<string>
    requires KnownType(env, typ)
  {
    FormattedNames(env.keyFormatter, env.registry[TypeName(env, typ)].fields)
  }

  /** The validation of one extracted entry: an unknown or unformatted type is an
      invalid resource, a missing list is the invalid field 'nil', the first field
      that is not a field name of the type is an invalid field, and otherwise the
      unformatted type maps to the unformatted fields. */
  function CheckFieldsEntry(env: Env, entry: (string, Option<seq<Json>>)): (r: Result<(string, seq<string>), Error>)
    ensures !KnownType(env, entry.0) ==> r == Err(InvalidResource(JStr(entry.0)))
    ensures KnownType(env, entry.0) && entry.1.None? ==> r == Err(InvalidField(entry.0, JStr("nil")))
    ensures r.Ok? <==> KnownType(env, entry.0) && entry.1.Some?
                       && forall i :: 0 <= i < |entry.1.value| ==> ValidField(entry.1.value[i], TypeFields(env, entry.0))
    ensures r.Ok? ==> && r.value.0 == UnformatKey(env.keyFormatter, entry.0)
                      && |r.value.1| == |entry.1.value|
                      && forall i :: 0 <= i < |entry.1.value| ==>
                           entry.1.value[i].JStr? && r.value.1[i] == UnformatKey(env.keyFormatter, entry.1.value[i].s)
    ensures forall i :: KnownType(env, entry.0) && entry.1.Some? && FirstInvalid(entry.1.value, TypeFields(env, entry.0), i) ==>
              r == Err(InvalidField(entry.0, entry.1.value[i]))
  {
    var kf := env.keyFormatter;
    var typ := entry.0;
    if typ != FormatKey(kf, typ) then Err(InvalidResource(JStr(typ)))
    else match ResourceFor(env, TypeName(env, typ))
      case Err(_) => Err(InvalidResource(JStr(typ)))
      case Ok(typeResource) =>
        match entry.1
        case None => Err(InvalidField(typ, JStr("nil")))
        case Some(requested) =>
          var names :- CheckFieldNames(kf, typ, requested, TypeFields(env, typ));
          Ok((UnformatKey(kf, typ), names))
  }

  function FieldsCheck(env: Env): ((string, Option<seq<Json>>)) -> Result<(string, seq<string>), Error> {
    entry => CheckFieldsEntry(env, entry)
  }

  /** `fields`, computed afresh. */
  function FieldsOf(env: Env, p: Params): (r: Result<map<string, seq<string>>, Error>)
    ensures Lookup(p, "fields") == JNull ==> r == Ok(map[])
    ensures Lookup(p, "fields") != JNull && !Lookup(p, "fields").JObj? ==> r == Err(InvalidFieldFormat)
  {
    var v := Lookup(p, "fields");
    if v == JNull then Ok(map[])
    else if !v.JObj? then Err(InvalidFieldFormat)
    else
      var extracted :- ExtractFields(v.entries);
      var checked :- RescuingMap(extracted, FieldsCheck(env));
      Ok(ToMap(checked))
  }

  /** The error `fields` raises when the entry at `i` fails its validation: that
      entry's own error is among those reported. */
  lemma FieldsEntryReported(env: Env, p: Params, i: nat)
    requires Lookup(p, "fields").JObj? && ExtractFields(Lookup(p, "fields").entries).Ok?
    requires i < |Lookup(p, "fields").entries|
    requires CheckFieldsEntry(env, ExtractFields(Lookup(p, "fields").entries).value[i]).Err?
    ensures FieldsOf(env, p).Err?
    ensures Reports(FieldsOf(env, p).error, CheckFieldsEntry(env, ExtractFields(Lookup(p, "fields").entries).value[i]).error)
  {
    var extracted := ExtractFields(Lookup(p, "fields").entries).value;
    var f := FieldsCheck(env);
    assert f(extracted[i]) == CheckFieldsEntry(env, extracted[i]);
  }

  /** A type key that is not in formatted form, or that names no known resource, is
      reported as an invalid resource. */
  lemma FieldsUnknownTypeReported(env: Env, p: Params, i: nat)
    requires Lookup(p, "fields").JObj? && ExtractFields(Lookup(p, "fields").entries).Ok?
    requires i < |Lookup(p, "fields").entries|
    requires !KnownType(env, Lookup(p, "fields").entries[i].0)
    ensures FieldsOf(env, p).Err?
    ensures Reports(FieldsOf(env, p).error, InvalidResource(JStr(Lookup(p, "fields").entries[i].0)))
  {
    var entries := Lookup(p, "fields").entries;
    assert ExtractFields(entries).value[i].0 == entries[i].0;
    FieldsEntryReported(env, p, i);
  }

  /** A known type whose value is nil or empty is reported as the invalid field 'nil'. */
  lemma FieldsEmptyListRefused(env: Env, p: Params, i: nat)
    requires Lookup(p, "fields").JObj? && ExtractFields(Lookup(p, "fields").entries).Ok?
    requires i < |Lookup(p, "fields").entries|
    requires var e := Lookup(p, "fields").entries[i];
      KnownType(env, e.0) && e.1 in {JNull, JStr(""), JArr([]), JObj([])}
    ensures FieldsOf(env, p).Err?
    ensures Reports(FieldsOf(env, p).error, InvalidField(Lookup(p, "fields").entries[i].0, JStr("nil")))
  {
    var entries := Lookup(p, "fields").entries;
    assert ExtractFields(entries).value[i] == (entries[i].0, None);
    FieldsEntryReported(env, p, i);
  }

  /** For a known type, the first requested field that is not one of its formatted
      field names is reported as an invalid field of that type. */
  lemma FieldsInvalidFieldReported(env: Env, p: Params, i: nat, j: nat)
    requires Lookup(p, "fields").JObj? && ExtractFields(Lookup(p, "fields").entries).Ok?
    requires i < |Lookup(p, "fields").entries|
    requires var e := Lookup(p, "fields").entries[i];
      && KnownType(env, e.0)
      && FieldList(e.1).value.Some?
      && FirstInvalid(FieldList(e.1).value.value, TypeFields(env, e.0), j)
    ensures FieldsOf(env, p).Err?
    ensures var e := Lookup(p, "fields").entries[i];
      Reports(FieldsOf(env, p).error, InvalidField(e.0, FieldList(e.1).value.value[j]))
  {
    var entries := Lookup(p, "fields").entries;
    assert ExtractFields(entries).value[i] == (entries[i].0, FieldList(entries[i].1).value);
    FieldsEntryReported(env, p, i);
  }

  /** An array with one item other than "," splits into itself. */
  lemma ArraySplitSingle(x: Json)
    requires x != JStr(",")
    ensures ArraySplit([x]) == [JArr([x])]
  {
    var items := [x];
    assert items[1..] == [];
    var rest := SplitOn(items[1..], JStr(","));
    assert rest == [[]];
    assert [items[0]] + rest[0] == items;
    assert SplitOn(items, JStr(",")) == [[items[0]] + rest[0]] + rest[1..] == [items];
    var r := ArraySplit(items);
    assert |r| == 1 && r[0] == JArr(items);
  }

  /** A field list given as an array of names is split as an array, so its pieces are
      arrays, never field names: `fields[people][]=name` is reported as the invalid
      field `["name"]`. */
  lemma FieldsArrayRefused(env: Env, p: Params, i: nat, name: string)
    requires Lookup(p, "fields").JObj? && ExtractFields(Lookup(p, "fields").entries).Ok?
    requires i < |Lookup(p, "fields").entries|
    requires var e := Lookup(p, "fields").entries[i];
      KnownType(env, e.0) && e.1 == JArr([JStr(name)]) && name != ","
    ensures FieldsOf(env, p).Err?
    ensures Reports(FieldsOf(env, p).error, InvalidField(Lookup(p, "fields").entries[i].0, JArr([JStr(name)])))
  {
    var e := Lookup(p, "fields").entries[i];
    var items := [JStr(name)];
    ArraySplitSingle(JStr(name));
    assert FieldList(e.1) == Ok(Some([JArr(items)]));
    assert FirstInvalid([JArr(items)], TypeFields(env, e.0), 0);
    FieldsInvalidFieldReported(env, p, i, 0);
  }

  /** On success every type key was in formatted form and named a known resource,
      its value was a non-empty string of that resource's formatted field names,
      and the unformatted type is a key of the result. */
  lemma FieldsAccepted(env: Env, p: Params, i: nat)
    requires Lookup(p, "fields").JObj? && FieldsOf(env, p).Ok?
    requires i < |Lookup(p, "fields").entries|
    ensures var e := Lookup(p, "fields").entries[i];
      && KnownType(env, e.0)
      && e.1.JStr? && e.1.s != ""
      && UnformatKey(env.keyFormatter, e.0) in FieldsOf(env, p).value
      && var requested := RubySplit(e.1.s, ',');
         forall j :: 0 <= j < |requested| ==> requested[j] in TypeFields(env, e.0)
  {
    var entries := Lookup(p, "fields").entries;
    FieldsEntryAccepted(env, entries, i);
  }

  /** On success, a type no later key unformats to maps to its unformatted fields,
      in the order given. */
  lemma FieldsStored(env: Env, p: Params, i: nat)
    requires Lookup(p, "fields").JObj? && FieldsOf(env, p).Ok?
    requires LastType(env.keyFormatter, Lookup(p, "fields").entries, i)
    ensures var e := Lookup(p, "fields").entries[i];
      e.1.JStr? && UnformatKey(env.keyFormatter, e.0) in FieldsOf(env, p).value
    ensures var e := Lookup(p, "fields").entries[i];
      e.1.JStr? && UnformatKey(env.keyFormatter, e.0) in FieldsOf(env, p).value ==>
        var requested := RubySplit(e.1.s, ',');
        FieldsOf(env, p).value[UnformatKey(env.keyFormatter, e.0)]
          == seq(|requested|, j requires 0 <= j < |requested| => UnformatKey(env.keyFormatter, requested[j]))
  {
    var entries := Lookup(p, "fields").entries;
    FieldsEntryStored(env, entries, i);
    FieldsEntryAccepted(env, entries, i);
  }

  /** No later type key unformats to the same name. */
  predicate LastType(kf: FormatterClass, entries: seq<(string, Json)>, i: int) {
    && 0 <= i < |entries|
    && forall k :: i < k < |entries| ==> UnformatKey(kf, entries[k].0) != UnformatKey(kf, entries[i].0)
  }

  /** The table `fields` builds from a hash that passed. */
  function FieldsTable(env: Env, entries: seq<(string, Json)>): map<string, seq<string>>
    requires ExtractFields(entries).Ok? && RescuingMap(ExtractFields(entries).value, FieldsCheck(env)).Ok?
  {
    ToMap(RescuingMap(ExtractFields(entries).value, FieldsCheck(env)).value)
  }

  /** One hash entry of a `fields` parameter that passed: see `FieldsAccepted`. */
  lemma FieldsEntryAccepted(env: Env, entries: seq<(string, Json)>, i: nat)
    requires ExtractFields(entries).Ok? && RescuingMap(ExtractFields(entries).value, FieldsCheck(env)).Ok?
    requires i < |entries|
    ensures var e := entries[i];
      && KnownType(env, e.0)
      && e.1.JStr? && e.1.s != ""
      && UnformatKey(env.keyFormatter, e.0) in FieldsTable(env, entries)
      && var requested := RubySplit(e.1.s, ',');
         forall j :: 0 <= j < |requested| ==> requested[j] in TypeFields(env, e.0)
  {
    var extracted := ExtractFields(entries).value;
    var f := FieldsCheck(env);
    var checked := RescuingMap(extracted, f).value;
    assert f(extracted[i]) == CheckFieldsEntry(env, extracted[i]);
    FieldsValueAccepted(env, entries[i]);
    ToMapSpec(checked);
    assert checked[i].0 == UnformatKey(env.keyFormatter, entries[i].0);
  }

  /** One hash entry of a `fields` parameter that passed: see `FieldsStored`. */
  lemma FieldsEntryStored(env: Env, entries: seq<(string, Json)>, i: nat)
    requires ExtractFields(entries).Ok? && RescuingMap(ExtractFields(entries).value, FieldsCheck(env)).Ok?
    requires LastType(env.keyFormatter, entries, i)
    ensures entries[i].1.JStr? && UnformatKey(env.keyFormatter, entries[i].0) in FieldsTable(env, entries)
    ensures entries[i].1.JStr? && UnformatKey(env.keyFormatter, entries[i].0) in FieldsTable(env, entries) ==>
      var requested := RubySplit(entries[i].1.s, ',');
      FieldsTable(env, entries)[UnformatKey(env.keyFormatter, entries[i].0)]
        == seq(|requested|, j requires 0 <= j < |requested| => UnformatKey(env.keyFormatter, requested[j]))
  {
    var kf := env.keyFormatter;
    var extracted := ExtractFields(entries).value;
    var f := FieldsCheck(env);
    var checked := RescuingMap(extracted, f).value;
    FieldsEntryAccepted(env, entries, i);
    FieldsValueAccepted(env, entries[i]);
    assert extracted[i] == (entries[i].0, FieldList(entries[i].1).value);
    assert checked[i] == CheckFieldsEntry(env, extracted[i]).value;
    forall k | i < k < |checked| ensures checked[k].0 != checked[i].0 {
      assert checked[k] == CheckFieldsEntry(env, extracted[k]).value;
      assert extracted[k].0 == entries[k].0;
    }
    ToMapSpec(checked);
    assert ToMap(checked)[checked[i].0] == checked[i].1;
  }

  /** A single `fields[type]` value that passes is a non-empty string of field names
      of a known type, and gives the unformatted names in order. */
  lemma FieldsValueAccepted(env: Env, e: (string, Json))
    requires FieldList(e.1).Ok? && CheckFieldsEntry(env, (e.0, FieldList(e.1).value)).Ok?
    ensures KnownType(env, e.0) && e.1.JStr? && e.1.s != ""
    ensures var requested := RubySplit(e.1.s, ',');
      && (forall j :: 0 <= j < |requested| ==> requested[j] in TypeFields(env, e.0))
      && CheckFieldsEntry(env, (e.0, FieldList(e.1).value)).value.1
           == seq(|requested|, j requires 0 <= j < |requested| => UnformatKey(env.keyFormatter, requested[j]))
  {
    var requested := FieldList(e.1).value.value;
    var pieces := RubySplit(e.1.s, ',');
    assert forall j :: 0 <= j < |pieces| ==> requested[j] == JStr(pieces[j]);
  }

  /** The extraction loop of `fields`. */
  method ExtractFieldLists(entries: seq<(string, Json)>) returns (r: Result<seq<(string, Option<seq<Json>>)>, Error>)
    ensures r == ExtractFields(entries)
  {
    var extracted: seq<(string, Option<seq<Json>>)> := [];
    var i := 0;
    while i < |entries|
      invariant 0 <= i <= |entries|
      invariant ExtractFields(entries[..i]) == Ok(extracted)
    {
      var list := FieldList(entries[i].1);
      if list.Err? {
        ExtractPrefixFails(entries, i);
        return Err(list.error);
      }
      ExtractPrefixStep(entries, i, extracted);
      extracted := extracted + [(entries[i].0, list.value)];
      i := i + 1;
    }
    assert entries[..i] == entries;
    r := Ok(extracted);
  }

  /** The loops of `fields` over a hash parameter: extraction, then validation of
      every type with the failures collected. */
  method CollectFields(env: Env, entries: seq<(string, Json)>) returns (r: Result<map<string, seq<string>>, Error>)
    ensures r == FieldsOf(env, [("fields", JObj(entries))])
  {
    var extracted := ExtractFieldLists(entries);
    if extracted.Err? {
      return Err(extracted.error);
    }
    var checked := RescuingMapLoop(extracted.value, FieldsCheck(env));
    if checked.Err? {
      return Err(checked.error);
    }
    r := Ok(ToMap(checked.value));
  }

  lemma {:induction false} ExtractPrefixStep(entries: seq<(string, Json)>, i: nat, extracted: seq<(string, Option<seq<Json>>)>)
    requires i < |entries|
    requires ExtractFields(entries[..i]) == Ok(extracted)
    requires FieldList(entries[i].1).Ok?
    ensures ExtractFields(entries[..i + 1]) == Ok(extracted + [(entries[i].0, FieldList(entries[i].1).value)])
    decreases i
  {
    if i == 0 {
      assert entries[..0] == [];
      assert extracted == [];
      var e := entries[..1];
      assert e == [entries[0]];
      assert e[1..] == [];
      assert ExtractFields(e[1..]) == Ok([]);
      var item := (entries[0].0, FieldList(entries[0].1).value);
      assert [item] + [] == [item];
      assert ExtractFields(e) == Ok([item]);
      assert extracted + [item] == [item];
    } else {
      var t := entries[1..];
      assert entries[..i][1..] == t[..i - 1];
      assert entries[..i + 1][1..] == t[..i];
      assert entries[..i][0] == entries[0];
      var first := FieldList(entries[0].1).value;
      var rest := ExtractFields(t[..i - 1]).value;
      assert extracted == [(entries[0].0, first)] + rest;
      ExtractPrefixStep(t, i - 1, rest);
      assert [(entries[0].0, first)] + (rest + [(t[i - 1].0, FieldList(t[i - 1].1).value)])
          == extracted + [(entries[i].0, FieldList(entries[i].1).value)];
    }
  }

  lemma {:induction false} ExtractPrefixFails(entries: seq<(string, Json)>, i: nat)
    requires i < |entries|
    requires ExtractFields(entries[..i]).Ok?
    requires FieldList(entries[i].1).Err?
    ensures ExtractFields(entries).Err? && ExtractFields(entries).error == FieldList(entries[i].1).error
    decreases i
  {
    if i == 0 {
    } else {
      var t := entries[1..];
      assert entries[..i][1..] == t[..i - 1];
      assert entries[..i][0] == entries[0];
      ExtractPrefixFails(t, i - 1);
    }
  }

  // ================================================================= include

  /** `check_include`: the first segment must be a relationship of the resource
      reached so far, written in formatted form; the rest of the path (when there is
      any) is checked against the resource the relationship points to. */
  function CheckInclude(env: Env, res: ResourceDef, parts: (string, string)): (r: Result<(), Error>)
    ensures r.Ok? ==> (UnformatKey(env.keyFormatter, parts.0) in res.relationships
                       && FormatKey(env.keyFormatter, UnformatKey(env.keyFormatter, parts.0)) == parts.0)
    decreases |parts.1|
  {
    var kf := env.keyFormatter;
    var relName := UnformatKey(kf, parts.0);
    match RelationshipNamed(res, relName)
    case Some(rel) =>
      if FormatKey(kf, relName) != parts.0 then Err(InvalidInclude(FormatKey(kf, res.resourceType), parts.0))
      else if parts.1 == [] then Ok(())
      else
        var next :- ResourceFor(env, env.resource.modulePath + Underscore(rel.className));
        CheckInclude(env, next, Partition(parts.1, '.'))
    case None => Err(InvalidInclude(FormatKey(kf, res.resourceType), parts.0))
  }

  /** The resource a declared relationship of `res` leads to. */
  function HopTarget(env: Env, res: ResourceDef, segment: string): Result<ResourceDef, Error>
    requires UnformatKey(env.keyFormatter, segment) in res.relationships
  {
    ResourceFor(env, env.resource.modulePath + Underscore(res.relationships[UnformatKey(env.keyFormatter, segment)].className))
  }

  /** A segment is a relationship of `res`, written exactly as the formatter writes it. */
  predicate SegmentNamesRelationship(env: Env, res: ResourceDef, segment: string) {
    var name := UnformatKey(env.keyFormatter, segment);
    name in res.relationships && FormatKey(env.keyFormatter, name) == segment
  }

  /** Hop by hop over the dotted segments of a path: every segment must name a
      relationship of the resource the previous hops reached; the walk ends at the
      last segment, or at a trailing empty one. */
  function PathCheck(env: Env, res: ResourceDef, segments: seq<string>): (r: Result<(), Error>)
    requires |segments| >= 1
    ensures r.Ok? ==> SegmentNamesRelationship(env, res, segments[0])
    ensures !SegmentNamesRelationship(env, res, segments[0]) ==>
              r == Err(InvalidInclude(FormatKey(env.keyFormatter, res.resourceType), segments[0]))
    decreases |segments|
  {
    if !SegmentNamesRelationship(env, res, segments[0]) then
      Err(InvalidInclude(FormatKey(env.keyFormatter, res.resourceType), segments[0]))
    else if |segments| == 1 || (|segments| == 2 && segments[1] == "") then Ok(())
    else
      var next :- HopTarget(env, res, segments[0]);
      PathCheck(env, next, segments[1..])
  }

  /** `check_include`, applied to `path.partition('.')`, is exactly the hop-by-hop
      check of the path's dotted segments. */
  lemma {:induction false} IncludeHopByHop(env: Env, res: ResourceDef, path: string)
    ensures CheckInclude(env, res, Partition(path, '.')) == PathCheck(env, res, SplitOn(path, '.'))
    decreases |path|
  {
    var parts := Partition(path, '.');
    var segs := SplitOn(path, '.');
    SplitAtFirst(path, '.');
    assert segs[0] == parts.0;
    if SegmentNamesRelationship(env, res, parts.0) {
      if parts.1 == [] {
        if '.' in path {
          assert segs == [parts.0] + SplitOn([], '.');
        }
      } else {
        assert '.' in path;
        var tail := SplitOn(parts.1, '.');
        assert segs[1..] == tail;
        JoinSplit(parts.1, '.');
        assert !(|segs| == 2 && segs[1] == "");
        match HopTarget(env, res, parts.0)
        case Ok(next) =>
          IncludeHopByHop(env, next, parts.1);
        case Err(_) =>
      }
    }
  }

  /** A comma-separated include path is accepted when it is not empty and passes
      the hop-by-hop check. */
  predicate PathAccepted(env: Env, piece: string) {
    piece != "" && PathCheck(env, env.resource, SplitOn(piece, '.')).Ok?
  }

  /** Every path of a list is accepted. */
  predicate AllPathsAccepted(env: Env, pieces: seq<string>) {
    forall i :: 0 <= i < |pieces| ==> PathAccepted(env, pieces[i])
  }

  /** One path of the `include` list: CSV gives nil for an empty field. */
  function IncludePath(env: Env, piece: string): (r: Result<string, Error>)
    ensures r.Ok? <==> PathAccepted(env, piece)
    ensures r.Ok? ==> r.value == UnformatKey(env.keyFormatter, piece)
  {
    if piece == "" then Err(RubyError("NoMethodError"))
    else
      IncludeHopByHop(env, env.resource, piece);
      var _ :- CheckInclude(env, env.resource, Partition(piece, '.'));
      Ok(UnformatKey(env.keyFormatter, piece))
  }

  function IncludeCheck(env: Env): string -> Result<string, Error> {
    piece => IncludePath(env, piece)
  }

  /** `include_directives`, computed afresh: nil without the parameter (or with an
      empty one); otherwise the switch, then every comma-separated path checked,
      all failures raised together. The directive tree is the list of unformatted
      paths it is built from. */
  function IncludeDirectivesOf(env: Env, p: Params): (r: Result<Option<seq<string>>, Error>)
    ensures Lookup(p, "include") == JNull ==> r == Ok(None)
    ensures Lookup(p, "include") != JNull && !env.config.allowInclude ==> r == Err(ParametersNotAllowed(["include"]))
  {
    var v := Lookup(p, "include");
    if v == JNull then Ok(None)
    else if !env.config.allowInclude then Err(ParametersNotAllowed(["include"]))
    else match v
      case JStr(s) =>
        if s == "" then Ok(None)
        else
          var paths :- RescuingMap(SplitOn(s, ','), IncludeCheck(env));
          Ok(Some(paths))
      case _ => Err(RubyError("NoMethodError"))
  }

  /** Every comma-separated piece of the include parameter, when there is one. */
  predicate IncludeGiven(env: Env, p: Params, s: string) {
    Lookup(p, "include") == JStr(s) && s != "" && env.config.allowInclude
  }

  /** Checking a list of paths together succeeds exactly when each path is
      accepted, and yields the unformatted paths in order. */
  lemma PathsAccepted(env: Env, pieces: seq<string>)
    ensures RescuingMap(pieces, IncludeCheck(env)).Ok? <==> AllPathsAccepted(env, pieces)
    ensures RescuingMap(pieces, IncludeCheck(env)).Ok? ==>
              forall i :: 0 <= i < |pieces| ==> RescuingMap(pieces, IncludeCheck(env)).value[i] == UnformatKey(env.keyFormatter, pieces[i])
  {
    var f := IncludeCheck(env);
    forall i | 0 <= i < |pieces|
      ensures f(pieces[i]) == IncludePath(env, pieces[i])
    {
    }
  }

  /** `include_directives` succeeds exactly when every comma-separated path is
      non-empty and passes the hop-by-hop check; the directives are then built from
      the unformatted paths, in order. */
  lemma IncludeAccepted(env: Env, p: Params, s: string)
    requires IncludeGiven(env, p, s)
    ensures IncludeDirectivesOf(env, p).Ok? <==> AllPathsAccepted(env, SplitOn(s, ','))
    ensures IncludeDirectivesOf(env, p).Ok? ==>
              && IncludeDirectivesOf(env, p).value.Some?
              && |IncludeDirectivesOf(env, p).value.value| == |SplitOn(s, ',')|
              && forall i :: 0 <= i < |SplitOn(s, ',')| ==>
                   IncludeDirectivesOf(env, p).value.value[i] == UnformatKey(env.keyFormatter, SplitOn(s, ',')[i])
  {
    var m := RescuingMap(SplitOn(s, ','), IncludeCheck(env));
    assert IncludeDirectivesOf(env, p) == if m.Ok? then Ok(Some(m.value)) else Err(m.error);
    PathsAccepted(env, SplitOn(s, ','));
  }

  /** Each path that fails the hop-by-hop check is reported with its own error. */
  lemma IncludeFailureReported(env: Env, p: Params, s: string, i: nat)
    requires IncludeGiven(env, p, s)
    requires i < |SplitOn(s, ',')| && SplitOn(s, ',')[i] != ""
    requires PathCheck(env, env.resource, SplitOn(SplitOn(s, ',')[i], '.')).Err?
    ensures IncludeDirectivesOf(env, p).Err?
    ensures Reports(IncludeDirectivesOf(env, p).error, PathCheck(env, env.resource, SplitOn(SplitOn(s, ',')[i], '.')).error)
  {
    var pieces := SplitOn(s, ',');
    var f := IncludeCheck(env);
    IncludeHopByHop(env, env.resource, pieces[i]);
    assert f(pieces[i]).Err?;
    assert f(pieces[i]).error == PathCheck(env, env.resource, SplitOn(pieces[i], '.')).error;
  }
}
