/** lib/jsonapi/formatter.rb: the formatter class hierarchy as a closed
    enumeration, what each class's `format` and `unformat` compute, the lookup of
    a formatter class by configured name, and `FormatterWrapperCache`, the
    memoising wrapper with its two tables. */
module Formatter {
  import opened Values
  import opened Inflector

  /** Every formatter class the file defines. */
  datatype FormatterClass =
    | BaseFormatter              // JSONAPI::Formatter
    | BaseKeyFormatter           // JSONAPI::KeyFormatter
    | BaseRouteFormatter         // JSONAPI::RouteFormatter
    | BaseValueFormatter         // JSONAPI::ValueFormatter
    | UnderscoredKeyFormatter
    | CamelizedKeyFormatter
    | DasherizedKeyFormatter
    | UnderscoredRouteFormatter
    | CamelizedRouteFormatter
    | DasherizedRouteFormatter
    | DefaultValueFormatter
    | IdValueFormatter

  /** The class itself and all its superclasses. */
  function Ancestors(f: FormatterClass): (r: set<FormatterClass>)
    ensures f in r && BaseFormatter in r
  {
    match f
    case BaseFormatter => {BaseFormatter}
    case BaseKeyFormatter => {f, BaseFormatter}
    case BaseRouteFormatter => {f, BaseFormatter}
    case BaseValueFormatter => {f, BaseFormatter}
    case UnderscoredKeyFormatter => {f, BaseKeyFormatter, BaseFormatter}
    case CamelizedKeyFormatter => {f, BaseKeyFormatter, BaseFormatter}
    case DasherizedKeyFormatter => {f, BaseKeyFormatter, BaseFormatter}
    case UnderscoredRouteFormatter => {f, BaseRouteFormatter, BaseFormatter}
    case CamelizedRouteFormatter => {f, BaseRouteFormatter, BaseFormatter}
    case DasherizedRouteFormatter => {f, BaseRouteFormatter, BaseFormatter}
    case DefaultValueFormatter => {f, BaseValueFormatter, BaseFormatter}
    case IdValueFormatter => {f, BaseValueFormatter, BaseFormatter}
  }

  /** Ruby's `is_a?` / `kind_of?`. */
  predicate IsKindOf(f: FormatterClass, c: FormatterClass) {
    c in Ancestors(f)
  }

  /** Ruby's `instance_of?`. */
  predicate IsInstanceOf(f: FormatterClass, c: FormatterClass) {
    f == c
  }

  /** `format`: `to_s` unless the class overrides it. Key and route formatters
      always give a string; only the value formatters can give back something else. */
  function FormatValue(f: FormatterClass, arg: Json): (r: Json)
    ensures !IsKindOf(f, BaseValueFormatter) ==> r.JStr?
  {
    match f
    case CamelizedKeyFormatter => JStr(CamelizeLower(ToS(arg)))
    case CamelizedRouteFormatter => JStr(CamelizeLower(ToS(arg)))
    case DasherizedKeyFormatter => JStr(Dasherize(Underscore(ToS(arg))))
    case DasherizedRouteFormatter => JStr(Dasherize(ToS(arg)))
    case DefaultValueFormatter => arg
    case IdValueFormatter => if arg == JNull then JNull else JStr(ToS(arg))
    case _ => JStr(ToS(arg))
  }

  /** `unformat`: the identity unless the class overrides it. */
  function UnformatValue(f: FormatterClass, arg: Json): (r: Json)
    ensures f !in {CamelizedKeyFormatter, CamelizedRouteFormatter, DasherizedKeyFormatter, DasherizedRouteFormatter}
            ==> r == arg
  {
    match f
    case CamelizedKeyFormatter => JStr(Underscore(ToS(arg)))
    case CamelizedRouteFormatter => JStr(Underscore(ToS(arg)))
    case DasherizedKeyFormatter => JStr(Underscore(ToS(arg)))
    case DasherizedRouteFormatter => JStr(Underscore(ToS(arg)))
    case _ => arg
  }

  /** The request parser's `format_key`, on a string key. */
  function FormatKey(f: FormatterClass, key: string): string {
    ToS(FormatValue(f, JStr(key)))
  }

  /** The request parser's `unformat_key`, on a string key (the symbol it makes is
      represented by its name). */
  function UnformatKey(f: FormatterClass, key: string): string {
    ToS(UnformatValue(f, JStr(key)))
  }

  /** `unformat_key` on an arbitrary parameter value: `unformat(v).try(:to_sym)`.
      A string gives a symbol (represented by its name); under the formatters whose
      `unformat` is the identity, nil and every other non-string give nil. */
  function UnformatKeyJson(f: FormatterClass, v: Json): (r: Option<string>)
    ensures v.JStr? ==> r == Some(UnformatKey(f, v.s))
    ensures r.None? <==> !UnformatValue(f, v).JStr?
    ensures r.None? ==> UnformatValue(f, v) == v
  {
    match UnformatValue(f, v)
    case JStr(s) => Some(s)
    case _ => None
  }

  /** `.to_s` of what `unformat_key` returned: a symbol's name, or "" for nil. */
  function NameOrEmpty(sym: Option<string>): string {
    match sym
    case Some(s) => s
    case None => ""
  }

  // ------------------------------------------------------------- registry

  /** The name a configuration uses for a top-level formatter class:
      `formatter_for(name)` builds the class name `"#{name.camelize}Formatter"`.
      The classes inside the JSONAPI namespace are not reachable that way. */
  function RegisteredName(f: FormatterClass): Option<string> {
    match f
    case UnderscoredKeyFormatter => Some("underscored_key")
    case CamelizedKeyFormatter => Some("camelized_key")
    case DasherizedKeyFormatter => Some("dasherized_key")
    case UnderscoredRouteFormatter => Some("underscored_route")
    case CamelizedRouteFormatter => Some("camelized_route")
    case DasherizedRouteFormatter => Some("dasherized_route")
    case DefaultValueFormatter => Some("default_value")
    case IdValueFormatter => Some("id_value")
    case _ => None
  }

  /** `Formatter.formatter_for`: the class registered under `name`, or None for a
      name no class answers to (a configuration error). */
  function FormatterFor(name: string): (r: Option<FormatterClass>)
    ensures r.Some? ==> RegisteredName(r.value) == Some(name)
    ensures r.None? ==> forall f :: RegisteredName(f) != Some(name)
  {
    if name == "underscored_key" then Some(UnderscoredKeyFormatter)
    else if name == "camelized_key" then Some(CamelizedKeyFormatter)
    else if name == "dasherized_key" then Some(DasherizedKeyFormatter)
    else if name == "underscored_route" then Some(UnderscoredRouteFormatter)
    else if name == "camelized_route" then Some(CamelizedRouteFormatter)
    else if name == "dasherized_route" then Some(DasherizedRouteFormatter)
    else if name == "default_value" then Some(DefaultValueFormatter)
    else if name == "id_value" then Some(IdValueFormatter)
    else None
  }

  /** `ValueFormatter.value_formatter_for(type)` builds `"#{type.camelize}ValueFormatter"`,
      the same class name `formatter_for` builds from `type + "_value"`; only value
      formatters answer to it. */
  function ValueFormatterFor(typeName: string): (r: Option<FormatterClass>)
    ensures r.Some? ==> IsKindOf(r.value, BaseValueFormatter)
    ensures typeName == "default" ==> r == Some(DefaultValueFormatter)
    ensures typeName == "id" ==> r == Some(IdValueFormatter)
  {
    var name := typeName + "_value";
    assert name[|name| - 6..] == "_value";
    FormatterFor(name)
  }

  // ------------------------------------------------------------- laws

  /** Every name in the registry finds its class. */
  lemma RegistryRoundTrip(f: FormatterClass)
    requires RegisteredName(f).Some?
    ensures FormatterFor(RegisteredName(f).value) == Some(f)
  {
  }

  /** The base classes and the underscored formatters: `format` is `to_s`, `unformat`
      the identity, so a string key survives the round trip unchanged. */
  lemma UnderscoredKeyRoundTrip(f: FormatterClass, key: string)
    requires f in {BaseFormatter, BaseKeyFormatter, BaseRouteFormatter, UnderscoredKeyFormatter, UnderscoredRouteFormatter}
    ensures FormatKey(f, key) == key
    ensures UnformatKey(f, FormatKey(f, key)) == key
  {
  }

  /** Dasherized keys: unformat after format is underscore, whatever the key; so a
      key without capitals or dashes (every snake_case key) comes back unchanged. */
  lemma DasherizedKeyRoundTrip(key: string)
    ensures UnformatKey(DasherizedKeyFormatter, FormatKey(DasherizedKeyFormatter, key)) == Underscore(key)
    ensures NoUpperNoDash(key) ==> UnformatKey(DasherizedKeyFormatter, FormatKey(DasherizedKeyFormatter, key)) == key
  {
    DasherizeUnderscore(key);
    if NoUpperNoDash(key) {
      UnderscoreFixesClean(key);
    }
  }

  /** The dasherized route formatter only swaps `_` for `-`; it does not underscore
      first, so camel-case text goes through unchanged where the key formatter
      would split it. Snake-case text still comes back. */
  lemma DasherizedRouteFormat(route: string)
    ensures FormatKey(DasherizedRouteFormatter, route) == Dasherize(route)
    ensures NoUpperNoDash(route) ==> UnformatKey(DasherizedRouteFormatter, FormatKey(DasherizedRouteFormatter, route)) == route
    ensures FormatKey(DasherizedRouteFormatter, "aB") == "aB"
    ensures FormatKey(DasherizedKeyFormatter, "aB") == "a-b"
  {
    if NoUpperNoDash(route) {
      var d := Dasherize(route);
      UnderscoreWithoutUpper([], d);
      assert DashToUnderscore(d) == route;
    }
    var s := "aB";
    assert s[1..] == "B" && s[1..][1..] == [];
    assert UnderscoreAfter(['a'], "B") == "_b";
    assert Underscore("aB") == "a_b";
    assert Dasherize("aB") == "aB";
    assert Dasherize("a_b") == "a-b";
  }

  /** Camelized keys and routes: the round trip holds for the CamelSafe snake_case
      keys, and fails for `a_b_c`. */
  lemma CamelizedKeyRoundTrip(f: FormatterClass, first: string, segments: seq<string>)
    requires f == CamelizedKeyFormatter || f == CamelizedRouteFormatter
    requires CamelSafe(first, segments)
    ensures UnformatKey(f, FormatKey(f, SnakeKey(first, segments))) == SnakeKey(first, segments)
  {
    CamelizeRoundTrip(first, segments);
  }

  lemma CamelizedKeyRoundTripCounterexample()
    ensures FormatKey(CamelizedKeyFormatter, "a_b_c") == "aBC"
    ensures UnformatKey(CamelizedKeyFormatter, FormatKey(CamelizedKeyFormatter, "a_b_c")) == "a_bc"
  {
    CamelizeRoundTripFailsOnAdjacentCapitals();
  }

  /** `IdValueFormatter` passes nil through and stringifies everything else;
      `DefaultValueFormatter` is the identity; both inherit the identity `unformat`. */
  lemma ValueFormatterLaws(v: Json)
    ensures FormatValue(IdValueFormatter, JNull) == JNull
    ensures v != JNull ==> FormatValue(IdValueFormatter, v) == JStr(ToS(v))
    ensures FormatValue(DefaultValueFormatter, v) == v
    ensures UnformatValue(IdValueFormatter, v) == v && UnformatValue(DefaultValueFormatter, v) == v
  {
  }

  // ------------------------------------------------------------- the cache

  /** `FormatterWrapperCache`: two memo tables, one per direction, filled on a miss.
      Valid() is the promise callers rely on: every stored answer is what the
      wrapped formatter gives for that argument. */
  class FormatterWrapperCache {
    const formatter: FormatterClass
    var formatCache: map<Json, Json>
    var unformatCache: map<Json, Json>

    ghost predicate Valid()
      reads this
    {
      && (forall a :: a in formatCache ==> formatCache[a] == FormatValue(formatter, a))
      && (forall a :: a in unformatCache ==> unformatCache[a] == UnformatValue(formatter, a))
    }

    constructor (formatter: FormatterClass)
      ensures this.formatter == formatter
      ensures formatCache == map[] && unformatCache == map[]
      ensures Valid()
    {
      this.formatter := formatter;
      formatCache := map[];
      unformatCache := map[];
    }

    /** Answers as the wrapped formatter does; a repeated argument is answered from
        the table, and the unformat table is left alone. */
    method Format(arg: Json) returns (r: Json)
      requires Valid()
      modifies this
      ensures Valid()
      ensures r == FormatValue(formatter, arg)
      ensures arg in old(formatCache) ==> r == old(formatCache)[arg] && formatCache == old(formatCache)
      ensures formatCache == old(formatCache)[arg := r]
      ensures unformatCache == old(unformatCache)
    {
      if arg in formatCache {
        r := formatCache[arg];
      } else {
        r := FormatValue(formatter, arg);
        formatCache := formatCache[arg := r];
      }
    }

    method Unformat(arg: Json) returns (r: Json)
      requires Valid()
      modifies this
      ensures Valid()
      ensures r == UnformatValue(formatter, arg)
      ensures arg in old(unformatCache) ==> r == old(unformatCache)[arg] && unformatCache == old(unformatCache)
      ensures unformatCache == old(unformatCache)[arg := r]
      ensures formatCache == old(formatCache)
    {
      if arg in unformatCache {
        r := unformatCache[arg];
      } else {
        r := UnformatValue(formatter, arg);
        unformatCache := unformatCache[arg := r];
      }
    }

    /** Caching a cache gives the same object back. */
    method Cached() returns (c: FormatterWrapperCache)
      ensures c == this
    {
      c := this;
    }

    /** The type probes are delegated to the wrapped formatter. */
    predicate IsA(c: FormatterClass)
      ensures IsA(c) <==> IsKindOf(formatter, c)
    {
      IsKindOf(formatter, c)
    }

    predicate KindOf(c: FormatterClass)
      ensures KindOf(c) <==> IsKindOf(formatter, c)
    {
      IsKindOf(formatter, c)
    }

    predicate InstanceOf(c: FormatterClass)
      ensures InstanceOf(c) <==> formatter == c
    {
      IsInstanceOf(formatter, c)
    }
  }

  /** `Formatter#cached`: a new, empty wrapper around the receiver. */
  method Cached(f: FormatterClass) returns (c: FormatterWrapperCache)
    ensures fresh(c)
    ensures c.formatter == f && c.formatCache == map[] && c.unformatCache == map[]
    ensures c.Valid()
  {
    c := new FormatterWrapperCache(f);
  }

  /** Two rounds through a fresh cache give the wrapped formatter's answers both
      times, and the second round is served from the tables. */
  method CacheIsTransparent(f: FormatterClass, a: Json) returns (first: Json, second: Json)
    ensures first == second == FormatValue(f, a)
  {
    var c := Cached(f);
    first := c.Format(a);
    var u := c.Unformat(a);
    assert a in c.formatCache;
    second := c.Format(a);
  }
}
