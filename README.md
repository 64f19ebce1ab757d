# JSON:API request parsing, modelled in Dafny

This project models the request parser of the `jsonapi-resources` Ruby gem, together with the key formatters it uses. For one controller action, the parser (`JSONAPI::RequestParser`) takes the request's parameter hash and returns one of two things:
- the list of operations the processor runs;
- the error it raises.

Along the way it reads four query parameters:
- `fields`: the sparse fieldsets;
- `include`: the include paths, checked relationship by relationship;
- `filter`: the filters, with their defaults;
- `sort`: the sort criteria.

It checks the resource type of a request body. It parses the to-one and to-many resource linkage of relationships. It checks that a body holds only permitted attributes and relationships, and then does one of two things:
- **raise mode:** it raises `ParametersNotAllowed` with every offending key;
- **warn mode:** it deletes those keys and appends one "Param not allowed" warning each.

Keys are translated between their client form and their internal form by a key formatter:
- underscored;
- camelized (lower camel case);
- dasherized.

A formatter can be wrapped in a cache (`FormatterWrapperCache`) that remembers each answer.

Files, in dependency order:

| file | module | what it holds |
|---|---|---|
| `values.dfy` | `Values` | Ruby parameter values (nil, booleans, integers, strings, arrays, ordered hashes), `to_s`, `Array.wrap`, `blank?`, hash lookup and `delete` |
| `strings.dfy` | `Strings` | the comma split of CSV lines, Ruby's `split`, `partition`, and their round trips |
| `inflector.dfy` | `Inflector` | ActiveSupport's `underscore`, `dasherize` and `camelize(:lower)` on ASCII text, and when they undo each other |
| `formatter.dfy` | `Formatter` | the formatter classes, their `format`/`unformat`, the name registry, and the caching wrapper as a class with two memo tables |
| `resources.dfy` | `Resources` | the resource schema the parser consults (an abstract value), the configuration switches, the error kinds, warnings, `params.require`/`fetch`, and `AggregatedError.rescuing_map` |
| `query_params.dfy` | `QueryParams` | `sort_criteria`, `filters`, `fields`, `check_include`/`include_directives` as functions, with the loops that fill their hashes as methods |
| `linkage.dfy` | `Linkage` | `parse_to_one_links_object`, `parse_to_many_links_object` (its grouping loop as a method), `parse_to_one_relationship`, `parse_to_many_relationship` |
| `body_params.dfy` | `BodyParams` | `verify_permitted_params` (function and loop methods), `parse_params`, `verify_type`, `parse_key_array` |
| `request_parser.dfy` | `RequestParser` | each `setup_*_action` and `operations` as a function, plus the class `Parser`: its memo fields and `warnings`, with every reader and setup routine as a method proved to return what the function computes |
| `request_rules.dfy` | `RequestRules` | what whole requests yield, action by action, the raise-mode guarantee that no warnings are appended, and the filters memo finding |

The specification functions compute each answer afresh. The class `Parser` is the stateful object:
- its memo fields each hold, once set, what the corresponding function computes (`Parser.Valid`);
- every method appends to `warnings` exactly the warnings the function reports.

Ruby runtime failures that the source does not guard against are modelled as the error `RubyError(<exception class>)`:
- calling a method on nil;
- indexing a string with a symbol.

The resource classes are abstract: `ResourceDef` records, a registry map, and two functions for `verify_key` and `verify_filters`. Every query on them is a field or a function of that value.

Two properties one might expect of the code that it does not have:
- **The camelized round trip.** Format then unformat does not give back every snake_case key under the camelized formatters:
  - `a_b_c` camelizes to `aBC`;
  - ActiveSupport's `underscore` turns `aBC` into `a_bc`.
  
  `Inflector.CamelizeRoundTrip` proves the round trip for exactly the keys `CamelSafe` admits. `Inflector.CamelizeRoundTripFailsOnAdjacentCapitals` and `Formatter.CamelizedKeyRoundTripCounterexample` exhibit the failure.
- **Repeated reads.** A second read of `filters` after it raised returns the memo instead of raising again; see Findings.

Other behaviours of the code that the model keeps as written:
- In `setup_update_action` the guard `keys.include?(:id)` looks for a symbol among the URL keys, which are strings, so it never holds. The key is therefore always deleted from the element before the type check and `parse_params` (`RequestParser.UpdateItemOf`).
- The `TypeMismatch` raised by `parse_to_many_relationship` reads `links_object[:type]` from a hash keyed by type strings, so it always carries nil (`TypeMismatch(None)`).
- `setup_update_relationship_action` on a polymorphic to-one relationship with a null linkage reads `[:id]` of nil (`RubyError("NoMethodError")`).
- `setup_destroy_relationship_action` on a to-many relationship whose key was not permitted (warn mode) calls `map` on nil.
- An `attributes` array in a body (`attributes: ["name"]`) is walked with `each` while `delete` removes every copy of an unpermitted item. In warn mode the item that slides into the deleted one's place is never checked (`BodyParams.PermitItemsSkipsNext`).
- A `fields` value given as an array (`fields[type][]=name`) is split by Active Support's `Array#split(',')` into arrays of items, which are never among the formatted field names, so every such request is refused with InvalidField (`QueryParams.FieldsArrayRefused`).

## Model

| member | source | states |
|---|---|---|
| Values.Wrap | lib/jsonapi/request_parser.rb:158-159 | `Array.wrap`: an array is kept as it is, nil gives the empty array, any other value is wrapped in a one-element array |
| Values.Get | lib/jsonapi/request_parser.rb:264 | a hash read finds a value exactly when some entry has the key, and the value found is stored under it |
| Values.Keys | lib/jsonapi/request_parser.rb:564 | `keys` lists every entry's key, one per entry, in order |
| Values.Delete | lib/jsonapi/request_parser.rb:175 | deleting a key from a hash leaves exactly the other entries and no entry with that key |
| Strings.SplitOn | lib/jsonapi/request_parser.rb:331 | a comma-separated line splits into at least one field |
| Strings.JoinSplit | lib/jsonapi/request_parser.rb:388 | splitting loses nothing: joining the fields gives the text back, and no field holds the separator |
| Strings.SplitJoin | lib/jsonapi/request_parser.rb:388 | fields without the separator come back unchanged from a split of their join |
| Strings.DropTrailingEmpty | lib/jsonapi/request_parser.rb:620 | Ruby's `split` drops only the empty pieces at the end: the result is a prefix ending in a non-empty piece, and everything dropped is empty |
| Strings.Partition | lib/jsonapi/request_parser.rb:314 | `partition('.')`: the head holds no dot; with a dot the text is head + "." + rest, otherwise the rest is empty; the rest is shorter than the text |
| Strings.SplitAtFirst | lib/jsonapi/request_parser.rb:312-315 | peeling an include path with `partition` visits exactly the pieces of its split on '.', in order |
| Inflector.Dasherize | lib/jsonapi/formatter.rb:131 | `dasherize` turns every `_` into `-` and changes nothing else |
| Inflector.UnderscoreIsClean | lib/jsonapi/formatter.rb:88-90 | the result of `underscore` holds no upper-case letter and no dash |
| Inflector.UnderscoreFixesClean | lib/jsonapi/formatter.rb:98-100 | `underscore` leaves text without capitals or dashes unchanged |
| Inflector.DasherizeUnderscore | lib/jsonapi/formatter.rb:93-100 | `underscore` is idempotent and undoes `dasherize` on its own output |
| Inflector.CamelizeRoundTrip | lib/jsonapi/formatter.rb:83-91 | `underscore(camelize(:lower))` gives back every CamelSafe snake_case key |
| Inflector.CamelizeRoundTripFailsOnAdjacentCapitals | lib/jsonapi/formatter.rb:83-91 | the round trip fails outside CamelSafe: `a_b_c` becomes `aBC`, then `a_bc` |
| Formatter.Ancestors | lib/jsonapi/formatter.rb:20-137 | every formatter class descends from `Formatter` and is its own ancestor |
| Formatter.FormatValue | lib/jsonapi/formatter.rb:3-5 | every key and route formatter's `format` returns a string (`to_s` or an inflection of it) |
| Formatter.UnformatValue | lib/jsonapi/formatter.rb:7-9 | `unformat` is the identity except in the camelized and dasherized classes |
| Formatter.UnformatKeyJson | lib/jsonapi/request_parser.rb:627-629 | `unformat_key`: a string key gives its unformatted name; nil (not a symbol) exactly when `unformat` does not return a string |
| Formatter.FormatterFor | lib/jsonapi/formatter.rb:15-17 | `formatter_for(name)` finds the class registered under that name, or nothing when no class answers to it |
| Formatter.ValueFormatterFor | lib/jsonapi/formatter.rb:49-51 | `value_formatter_for` finds only value formatters; "default" and "id" find the default and id value formatters |
| Formatter.RegistryRoundTrip | lib/jsonapi/formatter.rb:15-17 | every registered name finds its own class |
| Formatter.UnderscoredKeyRoundTrip | lib/jsonapi/formatter.rb:80-81 | the underscored formatters leave keys unchanged, so format then unformat is the identity |
| Formatter.DasherizedKeyRoundTrip | lib/jsonapi/formatter.rb:93-101 | unformat after format is `underscore` of the key, hence the identity on keys without capitals or dashes |
| Formatter.DasherizedRouteFormat | lib/jsonapi/formatter.rb:129-137 | the dasherized route formatter only swaps `_` for `-` (so "aB" stays "aB", whereas the key formatter gives "a-b"), and round-trips clean routes |
| Formatter.CamelizedKeyRoundTrip | lib/jsonapi/formatter.rb:83-91 | camelized keys and routes round-trip exactly on the CamelSafe snake_case keys |
| Formatter.CamelizedKeyRoundTripCounterexample | lib/jsonapi/formatter.rb:83-91 | the camelized key formatter maps `a_b_c` to `aBC` and back to `a_bc` |
| Formatter.ValueFormatterLaws | lib/jsonapi/formatter.rb:103-114 | the id value formatter keeps nil and stringifies everything else; the default one is the identity; neither changes a value when unformatting |
| Formatter.FormatterWrapperCache.constructor | lib/jsonapi/formatter.rb:58-62 | a new wrapper holds its formatter and two empty memo tables |
| Formatter.FormatterWrapperCache.Format | lib/jsonapi/formatter.rb:64-66 | answers as the wrapped formatter does; a hit returns the stored answer and changes nothing; a miss stores the answer; the unformat table is untouched |
| Formatter.FormatterWrapperCache.Unformat | lib/jsonapi/formatter.rb:68-70 | the same for the unformat direction, leaving the format table untouched |
| Formatter.FormatterWrapperCache.Cached | lib/jsonapi/formatter.rb:72-74 | caching a cache returns the same object |
| Formatter.FormatterWrapperCache.IsA | lib/jsonapi/formatter.rb:76 | `is_a?` on the wrapper answers as on the wrapped formatter |
| Formatter.FormatterWrapperCache.KindOf | lib/jsonapi/formatter.rb:76 | `kind_of?` on the wrapper answers as on the wrapped formatter |
| Formatter.FormatterWrapperCache.InstanceOf | lib/jsonapi/formatter.rb:76 | `instance_of?` on the wrapper answers as on the wrapped formatter |
| Formatter.Cached | lib/jsonapi/formatter.rb:11-13 | `cached` builds a fresh, empty wrapper around the receiver |
| Formatter.CacheIsTransparent | lib/jsonapi/formatter.rb:55-70 | asking a cache twice gives the wrapped formatter's answer both times |
| Resources.Aggregate | lib/jsonapi/request_parser.rb:334-337 | after every element is tried, one failure is raised as it is and several are raised together |
| Resources.AggregateReportsEach | lib/jsonapi/request_parser.rb:334-337 | every collected failure is reported by the raised error |
| Resources.ParamNotAllowedWarning | lib/jsonapi/request_parser.rb:598-602 | the warning has the PARAM_NOT_ALLOWED code, the title "Param not allowed" and the detail "<key> is not allowed." |
| Resources.RelationshipNamed | lib/jsonapi/request_parser.rb:470 | `_relationship(name)` finds the declared relationship of that name, or nil |
| Resources.VerifyKeys | lib/jsonapi/request_parser.rb:547 | `verify_keys` succeeds exactly when every key verifies, and yields the verified keys in order |
| Resources.ResourceFor | lib/jsonapi/request_parser.rb:280 | `resource_for` finds a registered resource, and raises NameError with the name otherwise |
| Resources.Require | lib/jsonapi/request_parser.rb:104 | `params.require` returns the value unless it is blank (`false` passes), and raises ParameterMissing with the key otherwise |
| Resources.Fetch | lib/jsonapi/request_parser.rb:243 | `params.fetch` returns the value, nil included, when the key is present, and raises ParameterMissing otherwise |
| Resources.Index | lib/jsonapi/request_parser.rb:106 | `raw_obj[:type]` answers on a hash (nil when the key is absent) and fails on anything else |
| Resources.Failures | lib/jsonapi/request_parser.rb:334-337 | the failures of a rescuing map: none exactly when every element succeeds, and every element's failure is among them |
| Resources.SuccessesAll | lib/jsonapi/request_parser.rb:364-371 | when every element succeeds, the stored results are all of them, in order |
| Resources.SuccessesFrom | lib/jsonapi/request_parser.rb:364-371 | every stored result is the result of some element |
| Resources.RescuingMap | lib/jsonapi/request_parser.rb:334-337 | `rescuing_map` succeeds exactly when every element does, yields each element's result in order, and otherwise raises an error that reports each failure |
| Resources.ToMapSpec | lib/jsonapi/request_parser.rb:367 | filling a hash pair by pair: it holds exactly the keys given, each with the value of the last pair for it |
| Resources.RescuingMapLoop | lib/jsonapi/request_parser.rb:334-337 | the loop that tries every element and collects failures and results computes the rescuing map |
| QueryParams.Criterion | lib/jsonapi/request_parser.rb:389-393 | a sort token is descending exactly when it starts with '-' |
| QueryParams.SortTokenRoundTrip | lib/jsonapi/request_parser.rb:389-393 | writing a criterion as a token and reading it back gives it again, when the key formatter round-trips its field |
| QueryParams.SortTokens | lib/jsonapi/request_parser.rb:388-401 | the tokens succeed exactly when each names a sortable field, giving one criterion per token in order; otherwise the first refused token is raised as InvalidSortCriteria (with the formatted resource type) |
| QueryParams.SortCriteriaOf | lib/jsonapi/request_parser.rb:375-402 | without `sort`, id ascending; with `sort` and sorting switched off, ParametersNotAllowed; otherwise the comma tokens |
| QueryParams.EachPairs | lib/jsonapi/request_parser.rb:364 | iterating a filter hash yields each name with its value, in order |
| QueryParams.DefaultFilters | lib/jsonapi/request_parser.rb:345-349 | the defaults are exactly the allowed filters with a non-nil default, each with a default declared for it |
| QueryParams.FilterCheck | lib/jsonapi/request_parser.rb:365-370 | a supplied filter passes exactly when its unformatted name is an allowed filter, and is stored under that name; otherwise it is FilterNotAllowed with that name |
| QueryParams.AcceptedFiltersAllowed | lib/jsonapi/request_parser.rb:364-371 | only allowed filters are stored |
| QueryParams.FiltersWithoutParam | lib/jsonapi/request_parser.rb:345-352 | without a filter parameter the filters are exactly the allowed filters with a default, each with its default |
| QueryParams.FiltersRefused | lib/jsonapi/request_parser.rb:355-361 | a filter parameter with filtering switched off is ParametersNotAllowed; one that cannot be iterated is InvalidFiltersSyntax |
| QueryParams.FilterNotAllowedReported | lib/jsonapi/request_parser.rb:364-371 | every supplied filter that is not allowed is reported in the raised error |
| QueryParams.FiltersSupplied | lib/jsonapi/request_parser.rb:363-372 | when all supplied names are allowed, the defaults are gone: the result holds exactly the supplied names, unformatted, each with the value given last for it |
| QueryParams.SuppliedFilterEntries | lib/jsonapi/request_parser.rb:363-372 | when every pair passes, nothing is raised and each pair is stored under its unformatted name |
| QueryParams.SuppliedFilterNames | lib/jsonapi/request_parser.rb:363-372 | the stored names are exactly the unformatted supplied names |
| QueryParams.SuppliedFilterValues | lib/jsonapi/request_parser.rb:363-372 | each name holds the value supplied last for it |
| QueryParams.CollectFilters | lib/jsonapi/request_parser.rb:363-372 | the `rescuing_each` loop over the filter pairs stores the accepted filters and collects the failures |
| QueryParams.CollectDefaultFilters | lib/jsonapi/request_parser.rb:345-349 | the defaults loop computes the default filters |
| QueryParams.SplitKeys | lib/jsonapi/request_parser.rb:265 | one string per piece of Ruby's `split(',')` on a string |
| QueryParams.ArraySplit | lib/jsonapi/request_parser.rb:265 | Active Support's `Array#split(',')`: one array per run of items between `","` items, and never no run |
| QueryParams.FieldList | lib/jsonapi/request_parser.rb:265 | nil, "", [] and {} give no list; a non-empty string gives its comma pieces and a non-empty array Active Support's split of it; booleans, integers and non-empty hashes have no `empty?` or `split` and raise NoMethodError |
| QueryParams.ExtractFields | lib/jsonapi/request_parser.rb:263-267 | every type of the `fields` hash with its list, in order |
| QueryParams.CheckFieldNames | lib/jsonapi/request_parser.rb:288-296 | the requested fields pass exactly when each is a string among the formatted field names of the type, and come back unformatted, in order; otherwise the first one that is not is InvalidField of the type and that field |
| QueryParams.CheckFieldsEntry | lib/jsonapi/request_parser.rb:273-301 | a type not in formatted form or naming no resource is InvalidResource; a known type without a list is InvalidField 'nil'; the first field not among the type's formatted fields is InvalidField; success exactly when the type is known and every field valid, giving the unformatted type and unformatted fields in order |
| QueryParams.FieldsOf | lib/jsonapi/request_parser.rb:256-304 | no `fields` gives no fieldsets; a `fields` that is not a hash is InvalidFieldFormat |
| QueryParams.FieldsEntryReported | lib/jsonapi/request_parser.rb:273-301 | a type whose check fails makes `fields` raise, and its failure is among those aggregated |
| QueryParams.FieldsUnknownTypeReported | lib/jsonapi/request_parser.rb:274-286 | a type not in formatted form, or naming no resource, is reported as InvalidResource of that type |
| QueryParams.FieldsEmptyListRefused | lib/jsonapi/request_parser.rb:265-299 | a known type given nil, "", [] or {} is reported as InvalidField of that type and 'nil' |
| QueryParams.FieldsInvalidFieldReported | lib/jsonapi/request_parser.rb:288-295 | for a known type, the first requested field that is not a formatted field of the type is reported as InvalidField of the type and that field |
| QueryParams.FieldsArrayRefused | lib/jsonapi/request_parser.rb:265-295 | `fields[type][]=name` is split into an array of arrays, so the field `[name]` is reported as InvalidField even when `name` is a field of the type |
| QueryParams.FieldsAccepted | lib/jsonapi/request_parser.rb:256-304 | when `fields` succeeds, every type is in formatted form and names a resource, its value is a non-empty string whose comma pieces are all formatted fields of the type, and the unformatted type is a key of the result |
| QueryParams.FieldsStored | lib/jsonapi/request_parser.rb:288-303 | when `fields` succeeds, a type that no later type unformats to the same name holds the unformatted comma pieces of its value, in order |
| QueryParams.FieldsValueAccepted | lib/jsonapi/request_parser.rb:265-296 | a value that passes is a non-empty string of the type's formatted fields, and yields their unformatted names in order |
| QueryParams.FieldsEntryAccepted | lib/jsonapi/request_parser.rb:273-303 | the per-type facts of `FieldsAccepted`, stated over the `rescuing_each` loop's table |
| QueryParams.FieldsEntryStored | lib/jsonapi/request_parser.rb:273-303 | the stored value of `FieldsStored`, stated over the `rescuing_each` loop's table |
| QueryParams.ExtractFieldLists | lib/jsonapi/request_parser.rb:263-270 | the extraction loop over the `fields` hash computes the extracted lists |
| QueryParams.CollectFields | lib/jsonapi/request_parser.rb:256-304 | the validation loop computes `fields` |
| QueryParams.CheckInclude | lib/jsonapi/request_parser.rb:306-321 | one hop of an include path: the head must be a relationship of the resource, given in formatted form; otherwise InvalidInclude with the formatted resource type |
| QueryParams.PathCheck | lib/jsonapi/request_parser.rb:306-321 | a dotted path passes when every hop names a relationship of the resource reached so far |
| QueryParams.IncludeHopByHop | lib/jsonapi/request_parser.rb:306-321 | the recursive `check_include` on `partition('.')` checks exactly the pieces of the path's split on '.' |
| QueryParams.IncludePath | lib/jsonapi/request_parser.rb:334-337 | one include path passes exactly when it is non-empty and passes the hop-by-hop check, and is then kept unformatted |
| QueryParams.IncludeDirectivesOf | lib/jsonapi/request_parser.rb:323-340 | no `include` gives nil; `include` with including switched off is ParametersNotAllowed |
| QueryParams.PathsAccepted | lib/jsonapi/request_parser.rb:334-337 | a list of paths passes exactly when each path does, and yields the unformatted paths in order |
| QueryParams.IncludeAccepted | lib/jsonapi/request_parser.rb:323-340 | `include_directives` succeeds exactly when every comma-separated path passes, and is built from the unformatted paths in order |
| QueryParams.IncludeFailureReported | lib/jsonapi/request_parser.rb:334-337 | each path that fails is reported with its own error |
| Linkage.ParseToOneLinksObject | lib/jsonapi/request_parser.rb:423-440 | nil gives a link with no type and no id; otherwise the object must be a hash with exactly `type` and `id`, else InvalidLinksObject, and the type comes back unformatted |
| Linkage.ToOneLinkageRoundTrip | lib/jsonapi/request_parser.rb:436-439 | a linkage written with the formatted type is read back with the unformatted type and the same id |
| Linkage.AddLinkSpec | lib/jsonapi/request_parser.rb:449-450 | `links_object[type] ||= []; push(id)` adds the type when it is new and appends the id to that type's list alone; types stay distinct |
| Linkage.GroupLinksSpec | lib/jsonapi/request_parser.rb:445-455 | grouping loses and invents nothing: one group per type that occurs, each holding exactly that type's ids in input order |
| Linkage.ParseLinks | lib/jsonapi/request_parser.rb:447-448 | parsing the array of linkage objects fails only with InvalidLinksObject |
| Linkage.ParseLinksSpec | lib/jsonapi/request_parser.rb:447-448 | the array parses exactly when every item does, one link per item, in order |
| Linkage.ParseToManyLinksObject | lib/jsonapi/request_parser.rb:442-456 | `parse_to_many_links_object` succeeds exactly on an array of well-formed links; nil and non-arrays are InvalidLinksObject |
| Linkage.CollectLinks | lib/jsonapi/request_parser.rb:442-456 | the loop over the array computes the grouped links |
| Linkage.ToOneLinkage | lib/jsonapi/request_parser.rb:498-502 | a nil value gives a nil linkage, and a hash gives its `data` |
| Linkage.ToOneNilLinkage | lib/jsonapi/request_parser.rb:497-521 | a nil value or nil `data` gives no link |
| Linkage.ToOneRules | lib/jsonapi/request_parser.rb:497-521 | a to-one linkage must be nil or exactly `{type, id}`; a type other than the declared one is a TypeMismatch unless the relationship is polymorphic; an id is verified by the resource of its type |
| Linkage.ToManyLinkage | lib/jsonapi/request_parser.rb:524-530 | only a hash or an empty array is accepted as a to-many value |
| Linkage.ToManyRules | lib/jsonapi/request_parser.rb:523-550 | a to-many linkage that is not an array is malformed; no links give no keys; a link of another type is a TypeMismatch; otherwise every id, in order, is verified by the declared type's resource |
| Linkage.GroupKeysRules | lib/jsonapi/request_parser.rb:538-549 | on grouped links: any link of another type is a mismatch; otherwise the keys are the ids in order, verified by the declared type's resource |
| BodyParams.DisallowedSpec | lib/jsonapi/request_parser.rb:564-580 | a nested key is reported exactly when it is present and not permitted |
| BodyParams.KeepAllowedSpec | lib/jsonapi/request_parser.rb:564-580 | a nested entry is kept exactly when it is present and permitted |
| BodyParams.PermitEntry | lib/jsonapi/request_parser.rb:561-591 | `relationships` fails exactly when it is not a hash; `attributes` fails exactly when it is neither a hash nor an array whose walk passes; every other key passes; a failure is NoMethodError |
| BodyParams.DeleteAll | lib/jsonapi/request_parser.rb:577 | `Array#delete` removes every copy of the item and nothing else |
| BodyParams.PermitItems | lib/jsonapi/request_parser.rb:573-580 | walking an `attributes` array fails only with NoMethodError (an item whose key has no `to_sym`) |
| BodyParams.PermitItemsRaiseMode | lib/jsonapi/request_parser.rb:573-580 | raise mode: the walk fails exactly when some item's key is not a string; otherwise the array is unchanged and the reported keys are exactly the items' keys that are not permitted, in order |
| BodyParams.NotPermittedKeysSpec | lib/jsonapi/request_parser.rb:573-575 | a key is reported exactly when some item has it and it is not permitted |
| BodyParams.PermitItemsShrinks | lib/jsonapi/request_parser.rb:573-580 | the array left after the walk holds only items it started with |
| BodyParams.PermitItemsWarnMode | lib/jsonapi/request_parser.rb:573-580 | warn mode: no reported key is left in the array |
| BodyParams.PermitItemsSkipsNext | lib/jsonapi/request_parser.rb:573-580 | warn mode: `Array#each` steps past the item that slides into a deleted one's place, so `["a", "b"]` with nothing permitted reports only "a" and keeps "b" |
| BodyParams.PermitItemsLoop | lib/jsonapi/request_parser.rb:573-580 | the index walk over the shrinking array computes `PermitItems` |
| BodyParams.Permit | lib/jsonapi/request_parser.rb:561-592 | the loop over the body fails exactly when one of its keys does |
| BodyParams.PermitReportSpec | lib/jsonapi/request_parser.rb:561-592 | every key an entry reports shows up in the report, and nothing else does |
| BodyParams.PermitKeptSpec | lib/jsonapi/request_parser.rb:561-592 | an entry stays in the body, possibly filtered, exactly when its key keeps it |
| BodyParams.PermitRaiseModeKeepsBody | lib/jsonapi/request_parser.rb:567-569 | in raise mode nothing is deleted from the body |
| BodyParams.NotAllowedWarnings | lib/jsonapi/request_parser.rb:598-602 | one warning per reported key, in order |
| BodyParams.VerifyPermittedRaiseMode | lib/jsonapi/request_parser.rb:594-596 | raise mode: the body passes untouched and without warnings when every key is permitted; otherwise ParametersNotAllowed carries exactly the reported keys |
| BodyParams.VerifyPermittedWarnMode | lib/jsonapi/request_parser.rb:597-604 | warn mode: no failure once the body is well shaped, the filtered body, and one "is not allowed" warning per reported key, in order |
| BodyParams.PermitEntryRules | lib/jsonapi/request_parser.rb:562-591 | `type` always passes; `id` is reported unless id is permitted, and dropped only in warn mode; a hash of attributes or relationships reports exactly its keys that are not permitted and, in warn mode only, keeps exactly the permitted pairs; an attributes array in raise mode fails exactly when an item's key is not a string and otherwise stays as given with its unpermitted keys reported; any other key is reported |
| BodyParams.FilterNested | lib/jsonapi/request_parser.rb:564-580 | the nested loop reports the keys that are not permitted and, in warn mode only, deletes them |
| BodyParams.PermitLoop | lib/jsonapi/request_parser.rb:561-592 | the loop over the body computes the permitted body and the report |
| BodyParams.PutSpec | lib/jsonapi/request_parser.rb:483-486 | assigning a key: the pair is present afterwards, every other pair stays, and nothing else is added |
| BodyParams.MergeUnique | lib/jsonapi/request_parser.rb:490-494 | entries with distinct keys are already a hash |
| BodyParams.DeepUnformatIdentity | lib/jsonapi/request_parser.rb:490-494 | with an identity `unformat`, `deep_transform_keys` leaves a value unchanged |
| BodyParams.PutNew | lib/jsonapi/request_parser.rb:483-486 | assigning a new key appends it |
| BodyParams.UnformatKeyIdempotent | lib/jsonapi/request_parser.rb:490-494 | unformatting a key twice is unformatting it once, so re-keying the parsed tables changes nothing further |
| BodyParams.UnformatAttribute | lib/jsonapi/request_parser.rb:552-555 | an attribute without a format, or with the default or id format, keeps its value |
| BodyParams.ParseParams | lib/jsonapi/request_parser.rb:458-495 | a body refused by `verify_permitted_params` raises that error without warnings |
| BodyParams.ParseParamsPlainAttributes | lib/jsonapi/request_parser.rb:458-495 | with underscored keys, a body of permitted plain attributes comes back as those attributes, in order, without warnings |
| BodyParams.PermitAllAttributes | lib/jsonapi/request_parser.rb:557-606 | a body whose attributes are all permitted passes unchanged without warnings |
| BodyParams.DisallowedNone | lib/jsonapi/request_parser.rb:572-580 | when every nested key is permitted, none is reported |
| BodyParams.KeepAllowedAll | lib/jsonapi/request_parser.rb:572-580 | when every nested key is permitted, all are kept |
| BodyParams.ParseAttributesPlain | lib/jsonapi/request_parser.rb:482-486 | plain attributes with distinct keys are stored as they are, in order |
| BodyParams.ParseAttributeItemsPairs | lib/jsonapi/request_parser.rb:483-486 | an attributes array of `[key, value]` pairs is read exactly as the hash of those pairs |
| BodyParams.ParseAttributeItemsName | lib/jsonapi/request_parser.rb:483-486 | a bare name in an attributes array becomes that attribute, unformatted, with value nil |
| BodyParams.ParseLink | lib/jsonapi/request_parser.rb:468-478 | one relationship link leaves the attributes alone |
| BodyParams.ParseRelationships | lib/jsonapi/request_parser.rb:468-479 | the loop over the links leaves the attributes alone |
| BodyParams.ParseEntry | lib/jsonapi/request_parser.rb:465-487 | an entry other than `relationships` leaves both relationship tables alone; one other than `id` and `attributes` leaves the attributes alone |
| BodyParams.PutKeys | lib/jsonapi/request_parser.rb:473-485 | after a hash assignment every key is the assigned one or was there before |
| BodyParams.PutUnique | lib/jsonapi/request_parser.rb:473-485 | a hash assignment keeps the keys distinct |
| BodyParams.PutTable | lib/jsonapi/request_parser.rb:473-485 | assigning an unformatted key keeps a table of distinct unformatted keys |
| BodyParams.UnformatKeyJsonUnformatted | lib/jsonapi/request_parser.rb:469-484 | a key `unformat_key` returns is already unformatted |
| BodyParams.IdUnformatted | lib/jsonapi/request_parser.rb:481 | `id` is its own unformatted key under every formatter |
| BodyParams.ParseLinkTables | lib/jsonapi/request_parser.rb:468-478 | a link keeps every table one of distinct unformatted keys, with only declared relationships of the matching kind |
| BodyParams.ParseRelationshipsTables | lib/jsonapi/request_parser.rb:468-479 | the links loop keeps the tables so |
| BodyParams.ParseRelationshipsFrame | lib/jsonapi/request_parser.rb:468-479 | a relationship no link names keeps its entry |
| BodyParams.ParseRelationshipsLink | lib/jsonapi/request_parser.rb:468-479 | the last link naming a declared relationship is stored under its unformatted name: a to-one as `parse_to_one_relationship` of it, a to-many as the keys `parse_to_many_relationship` yields |
| BodyParams.ParseAttributesTable | lib/jsonapi/request_parser.rb:483-486 | the attributes loop over a hash keeps a table of distinct unformatted keys |
| BodyParams.ParseAttributeItemsTable | lib/jsonapi/request_parser.rb:483-486 | the attributes loop over an array keeps it so |
| BodyParams.ParseEntryTables | lib/jsonapi/request_parser.rb:465-487 | each entry of the body keeps the tables so |
| BodyParams.ParseEntriesTables | lib/jsonapi/request_parser.rb:465-488 | the loop over the body keeps the tables so |
| BodyParams.ParseEntriesFrame | lib/jsonapi/request_parser.rb:465-488 | a body without `relationships` leaves the relationship tables alone; one without `id` and `attributes` leaves the attributes alone |
| BodyParams.ParseEntriesLink | lib/jsonapi/request_parser.rb:465-488 | a relationship link of the body is stored as `ParseRelationshipsLink` states |
| BodyParams.ParseEntriesId | lib/jsonapi/request_parser.rb:480-481 | `id`, with no `attributes` after it, is stored as its unformatted value |
| BodyParams.MergeRekeyed | lib/jsonapi/request_parser.rb:490-494 | re-keying a table of unformatted keys keeps its pairs distinct, so nothing is merged away |
| BodyParams.DeepTransformToOneTable | lib/jsonapi/request_parser.rb:490-494 | `deep_transform_keys` of the to-one table keeps each name and transforms each link's keys |
| BodyParams.DeepTransformToManyTable | lib/jsonapi/request_parser.rb:490-494 | `deep_transform_keys` of the to-many table keeps each name and transforms each key |
| BodyParams.DeepTransformTables | lib/jsonapi/request_parser.rb:490-494 | `deep_transform_keys` keeps all three tables, pair for pair, transforming only the values |
| BodyParams.DeepTransformToOne | lib/jsonapi/request_parser.rb:490-494 | a to-one pair survives the final re-keying with its link transformed |
| BodyParams.DeepTransformToMany | lib/jsonapi/request_parser.rb:490-494 | a to-many pair survives the final re-keying with its keys transformed |
| BodyParams.PermitKeysDistinct | lib/jsonapi/request_parser.rb:561-592 | the body `verify_permitted_params` leaves has distinct keys when it had |
| BodyParams.ParseParamsTables | lib/jsonapi/request_parser.rb:458-495 | each parsed table has distinct unformatted keys, and no relationship the resource does not declare appears |
| BodyParams.ParseParamsLink | lib/jsonapi/request_parser.rb:458-495 | the last link naming a declared relationship in the permitted body is in the parsed to-one or to-many table, under its unformatted name, with its value as parsed and re-keyed |
| BodyParams.ParseParamsId | lib/jsonapi/request_parser.rb:458-495 | the `id` of the permitted body, with no `attributes` after it, is the parsed `id` attribute, unformatted |
| BodyParams.ParseParamsAttributeName | lib/jsonapi/request_parser.rb:458-495 | with underscored keys, `attributes: [name]` with name permitted parses to `name => nil` without warnings |
| BodyParams.PermitAttributeName | lib/jsonapi/request_parser.rb:557-606 | `attributes: [name]` with name permitted passes unchanged without warnings |
| BodyParams.VerifyType | lib/jsonapi/request_parser.rb:415-421 | a nil type is ParameterMissing(type); a string type passes exactly when, unformatted, it names the resource, and is InvalidResource otherwise |
| BodyParams.VerifyFormattedType | lib/jsonapi/request_parser.rb:415-421 | the resource's formatted type passes exactly when the key formatter round-trips it |
| BodyParams.ParseKeyArray | lib/jsonapi/request_parser.rb:619-621 | the keys are the comma-separated pieces, each verified by the resource |
| BodyParams.SplitKeysOfJoin | lib/jsonapi/request_parser.rb:620 | keys without commas come back one per piece of their join |
| RequestParser.ActionOf | lib/jsonapi/request_parser.rb:31-32 | an action parameter reaches a setup routine only when it is that routine's name |
| RequestParser.ActionOfName | lib/jsonapi/request_parser.rb:31-36 | every setup routine is reached by its own name |
| RequestParser.AllWarningsNone | lib/jsonapi/request_parser.rb:105-113 | when no element appends a warning, the whole map appends none |
| RequestParser.RescueStateSpec | lib/jsonapi/request_parser.rb:105-113 | the rescuing loop's collection has the rescuing map's failures, every element's result when none failed, and all warnings in order |
| RequestParser.RescueOutcomeIsRescuingMap | lib/jsonapi/request_parser.rb:105-113 | what the loop raises or returns is the rescuing map, with the warnings appended on the way |
| RequestParser.CollectedIsRescueState | lib/jsonapi/request_parser.rb:167-186 | collecting each element's outcome in turn is the rescuing loop over the elements |
| RequestParser.ItemsOutcome | lib/jsonapi/request_parser.rb:167-186 | the outcome of the loop over the elements' outcomes is the rescuing map with warnings |
| RequestParser.RemoveResources | lib/jsonapi/request_parser.rb:192-198 | one removal per key, in order |
| RequestParser.RemoveKeys | lib/jsonapi/request_parser.rb:209-215 | one to-many removal per linked key, in order, and a crash when the to-many table is empty |
| RequestParser.Parser.constructor | lib/jsonapi/request_parser.rb:17-25 | a new parser has no warnings and all memos empty |
| RequestParser.Parser.Fields | lib/jsonapi/request_parser.rb:256-304 | returns `fields`, memoising only an accepted result, so the memo stays valid |
| RequestParser.Parser.Filters | lib/jsonapi/request_parser.rb:342-373 | corrected `filters`: returns the filters and memoises them only once accepted |
| RequestParser.Parser.FiltersAsWritten | lib/jsonapi/request_parser.rb:342-373 | `filters` as written: the first call returns the filters but leaves behind the defaults or the accepted part even when it raises; later calls return the memo |
| RequestParser.Parser.SortCriteria | lib/jsonapi/request_parser.rb:375-402 | returns `sort_criteria`, memoising only an accepted result |
| RequestParser.Parser.IncludeDirectives | lib/jsonapi/request_parser.rb:323-340 | returns `include_directives`, memoising only a non-nil result |
| RequestParser.Parser.SourceKlass | lib/jsonapi/request_parser.rb:225-228 | returns the source resource, memoised |
| RequestParser.Parser.SourceId | lib/jsonapi/request_parser.rb:230-233 | returns the source key as the source resource verifies it, memoised unless nil |
| RequestParser.Parser.CurrentRelationship | lib/jsonapi/request_parser.rb:235-239 | returns the relationship the request names, nil when absent, memoised unless nil |
| RequestParser.Parser.VerifyPermittedParams | lib/jsonapi/request_parser.rb:557-606 | returns the body as left and appends exactly the warnings of `verify_permitted_params` |
| RequestParser.Parser.ParseParams | lib/jsonapi/request_parser.rb:458-495 | returns `parse_params` and appends its warnings, even when it then raises |
| RequestParser.Parser.RelationshipParams | lib/jsonapi/request_parser.rb:241-245 | parses `data` as the relationship's linkage against the updatable fields |
| RequestParser.Parser.Listing | lib/jsonapi/request_parser.rb:75-78 | reads the include directives, sort criteria and fieldsets, in that order |
| RequestParser.Parser.SetupIndex | lib/jsonapi/request_parser.rb:41-52 | `setup_index_action` |
| RequestParser.Parser.SetupGetRelatedResource | lib/jsonapi/request_parser.rb:54-65 | `setup_get_related_resource_action` |
| RequestParser.Parser.SetupGetRelatedResources | lib/jsonapi/request_parser.rb:67-81 | `setup_get_related_resources_action` |
| RequestParser.Parser.SetupShow | lib/jsonapi/request_parser.rb:83-92 | `setup_show_action` |
| RequestParser.Parser.SetupShowRelationship | lib/jsonapi/request_parser.rb:94-101 | `setup_show_relationship_action` |
| RequestParser.Parser.CreateElement | lib/jsonapi/request_parser.rb:105-113 | the block for one created element, with the warnings it appends |
| RequestParser.Parser.UpdateElement | lib/jsonapi/request_parser.rb:167-186 | the block for one updated element, with the warnings it appends |
| RequestParser.Parser.UpdateBody | lib/jsonapi/request_parser.rb:177-185 | the type check and parse of an updated element once its key is removed |
| RequestParser.Parser.Item | lib/jsonapi/request_parser.rb:105-113 | one element of a create or update yields the element's result and appends its warnings |
| RequestParser.Parser.RescueItem | lib/jsonapi/request_parser.rb:167-186 | one turn of the rescuing loop records the element's result or its failure and appends its warnings |
| Inflector.CamelizeSnakeKey | lib/jsonapi/formatter.rb:86 | `camelize(:lower)` of a CamelSafe snake_case key keeps its first word and capitalises each later word |
| RequestParser.Parser.RescuingItems | lib/jsonapi/request_parser.rb:167-186 | the rescuing loop over the elements: its result and warnings are the collected outcomes of each element |
| RequestParser.Parser.SetupCreate | lib/jsonapi/request_parser.rb:103-114 | `setup_create_action`, with its warnings |
| RequestParser.Parser.SetupUpdate | lib/jsonapi/request_parser.rb:157-187 | `setup_update_action`, with its warnings |
| RequestParser.Parser.SetupDestroy | lib/jsonapi/request_parser.rb:189-199 | `setup_destroy_action` |
| RequestParser.Parser.SetupCreateRelationship | lib/jsonapi/request_parser.rb:116-125 | `setup_create_relationship_action`, with its warnings |
| RequestParser.Parser.SetupUpdateRelationship | lib/jsonapi/request_parser.rb:127-155 | `setup_update_relationship_action`, with its warnings |
| RequestParser.Parser.SetupDestroyRelationship | lib/jsonapi/request_parser.rb:201-223 | `setup_destroy_relationship_action`, with its warnings |
| RequestParser.Parser.RemoveRelationship | lib/jsonapi/request_parser.rb:208-222 | the removal operations once the relationship is known |
| RequestParser.Parser.Setup | lib/jsonapi/request_parser.rb:31-33 | runs the named setup routine; every memo stays valid |
| RequestParser.Parser.Operations | lib/jsonapi/request_parser.rb:28-39 | `operations`: the operations of the named action, or the invalid-action error, with the warnings appended |
| RequestRules.OperationsByName | lib/jsonapi/request_parser.rb:31-33 | an action named by a setup routine runs that routine |
| RequestRules.InvalidActionRefused | lib/jsonapi/request_parser.rb:34-36 | any other action is InternalServerError "Invalid action <inspect>", with no warnings |
| RequestRules.IndexDefaults | lib/jsonapi/request_parser.rb:41-52 | an index request without query parameters finds with the default filters, no includes, id ascending and no fieldsets |
| RequestRules.IndexReaders | lib/jsonapi/request_parser.rb:41-52 | an index request succeeds exactly when filters, includes, sort and fields are all accepted, finds with them, and otherwise raises the first refusal in that order |
| RequestRules.RelatedResourcesThroughSource | lib/jsonapi/request_parser.rb:67-81 | related resources are found through the source resource: its type, its verified parent key, and the filters its `verify_filters` returns |
| RequestRules.ShowRelationshipParent | lib/jsonapi/request_parser.rb:94-101 | a relationship is shown for the verified parent key; without the key the request is ParameterMissing |
| RequestRules.CreateNeedsData | lib/jsonapi/request_parser.rb:104 | a create request without `data` is ParameterMissing(data) |
| RequestRules.CreateItemPasses | lib/jsonapi/request_parser.rb:105-113 | a created element that passes is a hash of this resource's type, parsed against the creatable fields |
| RequestRules.CreateOnePerElement | lib/jsonapi/request_parser.rb:103-114 | each element of `data` becomes one creation, in order |
| RequestRules.CreateChecksType | lib/jsonapi/request_parser.rb:105-106 | an element whose type names another resource is reported as InvalidResource |
| RequestRules.CreateNeedsType | lib/jsonapi/request_parser.rb:106 | an element without a type is reported as ParameterMissing(type) |
| RequestRules.UpdateCountMismatch | lib/jsonapi/request_parser.rb:158-163 | URL keys and body elements in different numbers are a CountMismatch, before any element is read |
| RequestRules.UpdateMissingKey | lib/jsonapi/request_parser.rb:168 | an element without a key is reported as MissingKey |
| RequestRules.UpdateKeyMustBeInUrl | lib/jsonapi/request_parser.rb:165-173 | when the URL names keys or the body is an array, an element whose key the URL does not name is KeyNotIncludedInURL with that key |
| RequestRules.UpdateItemPasses | lib/jsonapi/request_parser.rb:167-186 | an updated element that passes has a key (named by the URL when checked), and the rest of it, without the key, is parsed against the updatable fields |
| RequestRules.UpdateOnePerElement | lib/jsonapi/request_parser.rb:157-187 | each element becomes one replacement of its own key, in order |
| RequestRules.DestroyOnePerKey | lib/jsonapi/request_parser.rb:189-199 | a destroy request removes one resource per comma-separated key, each verified, and fails exactly when a key is refused |
| RequestRules.CreateRelationshipIgnoresToOne | lib/jsonapi/request_parser.rb:117 | adding to a relationship that is not to-many does nothing |
| RequestRules.ReplaceToManyNeedsSet | lib/jsonapi/request_parser.rb:146-149 | replacing a to-many relationship that does not act as a set is ToManySetReplacementForbidden |
| RequestRules.ReplaceToOne | lib/jsonapi/request_parser.rb:142-144 | replacing a plain to-one relationship uses the key parsed from the linkage, nil for a null linkage |
| RequestRules.DestroyToOneRelationship | lib/jsonapi/request_parser.rb:216-222 | removing a to-one relationship is one removal, and no body is read |
| RequestRules.DestroyToManyRelationship | lib/jsonapi/request_parser.rb:208-215 | removing from a to-many relationship is one removal per linked key, in order |
| RequestRules.UndeclaredRelationshipCrashes | lib/jsonapi/request_parser.rb:201-206 | updating or removing a relationship the resource does not declare reads `name` of nil |
| RequestRules.ParseParamsRaiseModeSilent | lib/jsonapi/request_parser.rb:594-604 | in raise mode `parse_params` appends no warning |
| RequestRules.ItemRaiseModeSilent | lib/jsonapi/request_parser.rb:103-187 | in raise mode no created or updated element appends a warning |
| RequestRules.ItemsRaiseModeSilent | lib/jsonapi/request_parser.rb:103-187 | in raise mode the elements of a create or update append no warnings between them |
| RequestRules.RelationshipParamsRaiseModeSilent | lib/jsonapi/request_parser.rb:241-245 | in raise mode parsing a relationship's linkage appends no warning |
| RequestRules.CreateRaiseModeSilent | lib/jsonapi/request_parser.rb:103-114 | in raise mode a create request appends no warning |
| RequestRules.UpdateRaiseModeSilent | lib/jsonapi/request_parser.rb:157-187 | in raise mode an update request appends no warning |
| RequestRules.RelationshipActionsRaiseModeSilent | lib/jsonapi/request_parser.rb:116-223 | in raise mode the relationship actions append no warning |
| RequestRules.RaiseModeNoWarnings | lib/jsonapi/request_parser.rb:594-604 | in raise mode no request appends a warning, whatever its action |
| RequestRules.FiltersLeftBehindOnSuccess | lib/jsonapi/request_parser.rb:342-373 | once the filters are accepted, the memo left behind is what is returned |
| RequestRules.FiltersMemoKeepsRefusedRequest | lib/jsonapi/request_parser.rb:345-357 | a filter parameter with filtering switched off is refused, yet the memo left behind holds the (empty) defaults |
| RequestRules.FiltersTwiceAsWritten | lib/jsonapi/request_parser.rb:342-357 | as written, a second `filters` returns the memo left behind instead of the first call's error |
| RequestRules.FiltersTwice | lib/jsonapi/request_parser.rb:342-373 | corrected, two calls to `filters` give the same answer |

## Left out

- `operations` on a nil parameter hash (it returns no operations): parameters are always a hash here.
- The conversion of Rails' `ActionController::ParameterMissing` into the gem's `ParameterMissing`: both are the one error `ParameterMissing(key)`.
- The `paginator`, `context` and `cache_serializer` options of the operations: the paginator classes are not part of this model.
- The `JSONAPI::Operation`, `JSONAPI::IncludeDirectives` and `AggregatedError` classes themselves:
  - an operation is a datatype of its arguments;
  - the include directive tree is the list of unformatted paths it is built from;
  - an aggregated error is the list of failures.
- The resource classes and `Resource.resource_for`: a registry map and record fields stand for them. `verify_key`, `verify_keys` and `verify_filters` are functions supplied with the resource. The `createable_fields`/`updateable_fields` fallbacks are the two field lists.
- `safe_constantize`, `respond_to?` and `send`: formatter classes are a closed datatype, and actions are a closed datatype with a name each.
- `CSV.parse_line`: a plain split on commas (quoting is not modelled; an empty field is nil). `URI.unescape` of `sort` is not modelled.
- ActiveSupport's inflections: modelled on ASCII letters, digits, `_` and `-` only, with no acronyms or Unicode.
- The value formatters' `unformat` beyond the default and id formatters: a `format` option naming no class crashes; any other class is the identity.
- Thread safety of `FormatterWrapperCache`: the model is sequential.
- `QueryParams.FieldsOf`: its own contract states only the no-parameter and malformed-parameter cases; each type's outcome is stated by `FieldsUnknownTypeReported`, `FieldsEmptyListRefused`, `FieldsInvalidFieldReported`, `FieldsArrayRefused`, `FieldsAccepted` and `FieldsStored`.
- `Linkage.ParseLinks`: its own contract states only the error kind; `Linkage.ParseLinksSpec` states the rest.
- `BodyParams.ParseParams`: its own contract states the refusal case; the parsed tables are stated by `ParseParamsTables` (distinct unformatted keys, only declared relationships), `ParseParamsLink` (each relationship link, for the last link of a name in a body with distinct keys), `ParseParamsId` (`id` when no `attributes` follows it), `ParseParamsPlainAttributes` and `ParseParamsAttributeName`. A to-one or to-many pair is not traced through a later link that unformats to the same name, and an attribute value is traced only for plain attributes.
- `BodyParams.ParseAttributeItems`: in warn mode an attributes array can keep an item whose key is not a string (the item after a deleted one is never checked); when `unformat_key` gives nil for it, the model leaves the item out instead of storing it under a nil key.
- `Values.ToS`: an array or hash renders as `[...]` or `{...}` instead of Ruby's `to_s`/`inspect` text. This reaches the formatters' output for such values, `RequestParser.Inspect` in the invalid-action message, and the update key `object_params[:id].to_s` (lib/jsonapi/request_parser.rb:170) when the id is an array or hash; strings, integers, booleans and nil render as Ruby does.

## Findings

| source | as written | input that shows it | evidently intended | confidence | as-written member | corrected member |
|---|---|---|---|---|---|---|
| lib/jsonapi/request_parser.rb:345-372 | `filters` assigns `@filters` (the defaults, then the accepted filters) before the checks that raise. A later call returns `@filters` instead of raising again. | filtering switched off and `filter[name]=x` on a resource with no default filters: the first call raises ParametersNotAllowed, and a second call returns `{}` | the memo holds only accepted filters, so repeated reads give the same answer | medium, not executed | RequestRules.FiltersMemoKeepsRefusedRequest | RequestParser.Parser.Filters |
