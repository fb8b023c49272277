# azuresearch in Dafny

A model of the core of `azuresearch`, a Python client for Azure Cognitive Search. The
library describes the service's resources as Python objects: indexes with their fields,
suggesters, analyzers and scoring profiles; documents; data sources; skills and
skillsets; and indexers with their parameters. Each resource turns itself into the REST
payload with `to_dict` and comes back from a payload with `load`.

The model keeps the library's own structure, one module per source file:

| module | file | what it holds |
|---|---|---|
| `Wire` | `wire.dfy` | JSON values, ordered dicts with Python `dict` semantics, the exceptions |
| `SearchObject` | `search_object.dfy` | `to_snake_case`, `to_camel_case`, the key-mapping dict helpers, `remove_empty_values`, the generic `load` |
| `Fields` | `field.dfy` | the field classes, their validation, `to_dict`, `Field.load` |
| `Suggesters` | `suggester.dfy` | suggesters |
| `Analyzers` | `custom_analyzer.dfy` | custom analyzers |
| `ScoringProfiles` | `scoring_profile.dfy` | text weights, scoring functions, scoring profiles |
| `Indexes` | `index.dfy` | the index: construction, `to_dict`, `load` |
| `Documents` | `document.dfy` | `check_document`, `add`, `delete` |
| `FieldMappings` | `field_mapping.dfy` | field mappings |
| `DataSources` | `data_source.dfy` | blob data sources |
| `Skills` | `skill.dfy` | skill inputs and outputs, skills as values: construction, `to_dict`, `load` |
| `SkillWiring` | `skill_wiring.dfy` | a skill as an object: `add_source`, `remove_source`, output field mappings |
| `CognitiveSkills` | `cognitive_skills.dfy` | the predefined skills |
| `Skillsets` | `skillset.dfy` | skillsets |
| `IndexerParams` | `indexer_parameters.dfy` | indexer parameters and configuration |
| `Indexers` | `indexer.dfy` | indexers |

The model works like this:
- A payload is a `Json` value. A Python dict is a `Dict<V>`: a sequence of (key, value)
  pairs. Writing a key that is already present replaces its value in place. Writing a new
  key appends it.
- Keyword arguments are such dicts, so "the later key wins" and "params override the
  fixed keys" are stated exactly.
- Python exceptions are the `Exc` values of a `Result`. Each error path of the source
  (a missing argument, a duplicate argument, `ValueError`, `KeyError`, `TypeError`, a bare
  `Exception`) is a distinct outcome.
- Loops that update things step by step become methods with loop invariants, proved
  against a specification function. This covers the in-place stamping of fields with
  their index name, `check_document`, `add`/`delete`, `add_source`, `remove_source` and
  the output-field-mapping collectors.
- A skill whose `inputs` list is rewired in place is a class, `SkillWiring.Skill`.

## Model

| member | source | states |
|---|---|---|
| SearchObject.Split | azuresearch/azure_search_object.py:66 | `split('_')` yields at least one segment, none containing `_`, and a string without `_` is its own single segment |
| SearchObject.SplitJoin | azuresearch/azure_search_object.py:66 | splitting segments joined with `_` gives the segments back |
| SearchObject.JoinSplit | azuresearch/azure_search_object.py:66 | joining the segments of a split with `_` gives the string back |
| SearchObject.SnakeNoUpper | azuresearch/azure_search_object.py:56-60 | `to_snake_case` never leaves an uppercase letter |
| SearchObject.SnakeIdentity | azuresearch/azure_search_object.py:56-60 | `to_snake_case` leaves a string without uppercase letters unchanged |
| SearchObject.SnakeAppend | azuresearch/azure_search_object.py:7 | the regex substitution works piecewise: over `a + b` it is the scan over `a` then the scan over `b`, except where the last letter of `a` is uppercase and looks ahead at a lowercase `b[0]` |
| SearchObject.SnakeTitled | azuresearch/azure_search_object.py:7 | an uppercase initial after a lowercase letter gets a `_` in front and is lower-cased |
| SearchObject.CamelNoUnderscore | azuresearch/azure_search_object.py:62-67 | `to_camel_case` never leaves a `_` |
| SearchObject.CamelKeepsFirstSegment | azuresearch/azure_search_object.py:62-67 | `to_camel_case` keeps the text before the first `_` verbatim, as a prefix of the result |
| SearchObject.CamelIdentity | azuresearch/azure_search_object.py:62-67 | `to_camel_case` leaves a string without `_` unchanged |
| SearchObject.CamelTrailingUnderscore | azuresearch/azure_search_object.py:62-67 | a trailing `_` adds an empty segment that titles to nothing, so `x_` camel-cases to `x` |
| SearchObject.TitleAllCaps | azuresearch/azure_search_object.py:67 | `title()` of lowercase segments upper-cases the first letter of each and leaves the rest |
| SearchObject.FixedKey | azuresearch/azure_search_object.py:56-67 | a key with neither uppercase letters nor `_` passes through both converters unchanged |
| SearchObject.ODataTypeKeyIsFixed | azuresearch/azure_search_object.py:56-67 | `@odata.type` passes through both converters unchanged |
| SearchObject.CamelSnakeRoundTrip | azuresearch/azure_search_object.py:56-67 | `to_snake_case(to_camel_case(k)) == k` for every key of non-empty lowercase segments with no two adjacent one-letter segments after the first; this covers every key whose segments after the first have at least two letters, and also `a_bc`, `x_id` and `a_b_cd` |
| SearchObject.KeyForms | azuresearch/azure_search_object.py:56-67 | such a key camel-cases to its segments with capitalised initials, and that snake-cases back to the key |
| SearchObject.ShortSegmentsRoundTrip | azuresearch/azure_search_object.py:56-67 | a one-letter segment next to a longer one is recovered: `x_id` goes to `xId` and back, `a_b_cd` to `aBCd` and back |
| SearchObject.OneLetterSegmentsDoNotRoundTrip | azuresearch/azure_search_object.py:56-67 | the round trip fails for one-letter segments: `a_b_c` becomes `aBC`, which becomes `a_bc` |
| SearchObject.RekeyKeys | azuresearch/azure_search_object.py:69-83 | a key dict-conversion produces is exactly the conversion of some input key |
| SearchObject.RekeyValues | azuresearch/azure_search_object.py:69-83 | conversion never invents a value: each result entry is an input entry with its key converted, and no key repeats |
| SearchObject.RekeyLaterWins | azuresearch/azure_search_object.py:74 | when two keys convert to one string, the later entry's value wins |
| SearchObject.RekeyGet | azuresearch/azure_search_object.py:74 | the value of k sits under f(k) when no other key converts to the same string |
| SearchObject.RekeyInjective | azuresearch/azure_search_object.py:73-74 | when the converted keys are distinct, every entry is kept in order |
| SearchObject.RekeyIdentity | azuresearch/azure_search_object.py:73-74 | converting keys the converter leaves alone changes nothing |
| SearchObject.SnakeCollisionLaterWins | azuresearch/azure_search_object.py:69-75 | `{'aB': 1, 'a_b': 2}` snake-cases to `{'a_b': 2}` |
| SearchObject.RemoveEmptyValuesKeeps | azuresearch/azure_search_object.py:45-54 | a key survives exactly when its value is neither None nor of length zero, and its value is unchanged |
| SearchObject.RemoveEmptyValuesSubset | azuresearch/azure_search_object.py:45-54 | stripping adds no key |
| SearchObject.RemoveEmptyValuesAppend | azuresearch/azure_search_object.py:45-54 | stripping works entry by entry: it distributes over concatenation |
| SearchObject.RemoveEmptyValuesIdempotent | azuresearch/azure_search_object.py:45-54 | stripping twice is stripping once |
| SearchObject.RemoveEmptyValuesExample | azuresearch/azure_search_object.py:45-54 | False and 0 have no length and are kept; "", [], {} and None are dropped |
| SearchObject.RemoveEmptyValuesAllEmpty | azuresearch/azure_search_object.py:45-54 | a dict of only None or empty values strips to `{}` |
| SearchObject.RemoveEmptyValuesNone | azuresearch/azure_search_object.py:45-54 | a dict with no None or empty value is left as it is |
| SearchObject.ApiParams | azuresearch/base_api_call.py:17-27 | a `service_name` keyword is a duplicate argument; otherwise the params bag is every keyword but `endpoint` |
| SearchObject.LoadKwargs | azuresearch/azure_search_object.py:33-43 | anything but a dict raises "Failed to parse input as Dict" |
| SearchObject.LoadKwargsKeys | azuresearch/azure_search_object.py:42-43 | `load` passes on each snake-cased key of the data exactly once, and no other key |
| SearchObject.WireDictGet | azuresearch/azure_search_object.py:45-83 | the shared `to_dict` tail sends under camel(k) the params value if params has k, else the fixed value, and drops it when empty |
| SearchObject.ParamWins | azuresearch/indexes/field.py:123-129 | the params bag overrides the fixed keys: a param's value is what is sent under its camel-cased key |
| SearchObject.ParamOverrides | azuresearch/indexes/field.py:123-129 | a single param that camel-cases onto a fixed key overrides it |
| SearchObject.WireDictNoParams | azuresearch/azure_search_object.py:45-83 | without params the payload is the fixed dict camel-cased and stripped |
| SearchObject.WireDictPlain | azuresearch/azure_search_object.py:45-83 | a fixed dict already in camelCase with no empty value is sent as it is |
| SearchObject.CamelWireGet | azuresearch/azure_search_object.py:77-83 | without params each fixed value is sent under its camel-cased key, unless it is empty |
| SearchObject.CamelWireForm | azuresearch/azure_search_object.py:77-83 | without params or empty values the payload lists the fixed entries in order under their camel-cased keys |
| SearchObject.CamelSentSnakeLoaded | azuresearch/azure_search_object.py:69-83 | snake-casing what `to_dict` sends gives the fixed entries back when each key survives the round trip |
| SearchObject.StrippedSnakeGet | azuresearch/azure_search_object.py:69-75 | `load` of a stripped payload finds each fixed value under its snake-cased key, unless it was stripped |
| SearchObject.StrippedSnakeKeys | azuresearch/azure_search_object.py:69-75 | `load` of such a payload sees only the snake-cased keys |
| SearchObject.LoadEach | azuresearch/indexes/index.py:116-118 | `[X.load(x) for x in v]`: v must be a list; on success each element is loaded into the matching result, and on failure the error is that of the first element that fails to load, every earlier one having loaded |
| SearchObject.LoadItemsOk | azuresearch/indexes/index.py:116-118 | items that each load to a value load to the list of those values |
| Fields.KindOf | azuresearch/indexes/field.py:216-225 | `TYPES` maps exactly the eight wire types, each to a subclass, never to the base class |
| Fields.ValidateType | azuresearch/indexes/field.py:92-97 | the type is accepted exactly when it is one of the eight; otherwise `ValueError`, or `TypeError` for a list or dict that cannot be looked up |
| Fields.ValidateName | azuresearch/indexes/field.py:99-103 | the name is accepted exactly when it is neither None nor ""; otherwise `ValueError("Field must have a name")` |
| Fields.InitField | azuresearch/indexes/field.py:42-75 | without `name` the call does not bind; on success the attributes are the arguments or their defaults, the type is valid and the name is valid |
| Fields.InitFieldOutcome | azuresearch/indexes/field.py:71-75 | the constructor succeeds exactly when the reported type and the name are valid; a bad type is reported first, then a bad name |
| Fields.NewField | azuresearch/indexes/field.py:150-213 | a constructed field has the requested class, a valid type and a valid name |
| Fields.NewFieldOutcome | azuresearch/indexes/field.py:150-213 | construction succeeds exactly when the call binds, the reported type is one of the eight and the name is valid, with the type checked first |
| Fields.NewFieldBinding | azuresearch/indexes/field.py:169-171 | without a name the call fails to bind; `CollectionField` given `field_type` gets that argument twice |
| Fields.BaseFieldNeedsType | azuresearch/indexes/field.py:84-97 | the base class without an explicit type reports `Edm.`, which `_validate_type` rejects |
| Fields.DerivedTypes | azuresearch/indexes/field.py:84-90 | every subclass's derived type is the name `TYPES` registers it under |
| Fields.CollectionPinned | azuresearch/indexes/field.py:163-172 | a `CollectionField` is never sortable or a key, has type `Collection(Edm.String)`, and is searchable unless told otherwise |
| Fields.GeographyNeverFacetable | azuresearch/indexes/field.py:205-213 | a `GeographyPointField` is never facetable, whatever the arguments |
| Fields.StringFieldDefaults | azuresearch/indexes/field.py:150-160 | a `StringField` is searchable and not a key unless told otherwise, and reports `Edm.String` unless given a type |
| Fields.StringFieldInit | azuresearch/indexes/field.py:156-160 | `StringField` runs the base constructor without `searchable` and `key`, then sets those two |
| Fields.NewFieldParams | azuresearch/indexes/field.py:42-57 | the params bag holds exactly the keyword arguments no parameter of `Field.__init__` binds |
| Fields.ParamsBag | azuresearch/indexes/field.py:150-213 | the subclasses only reassign flags, so the params bag is the base constructor's |
| Fields.BaseKwargsGet | azuresearch/indexes/field.py:150-213 | each subclass hands on to the base constructor its arguments minus its own parameters, plus the values it forces |
| Fields.FieldFixed | azuresearch/indexes/field.py:108-121 | the fixed part of the payload has the twelve wire keys in source order |
| Fields.FieldWireGet | azuresearch/indexes/field.py:105-130 | under each wire key `to_dict` sends the param value if a param has that key, else the attribute, and drops it when None or empty |
| Fields.AttributeSent | azuresearch/indexes/field.py:105-130 | an attribute that is neither None nor empty is always sent, so the boolean flags are sent even when False |
| Fields.EmptyAnalyzersLeftOut | azuresearch/indexes/field.py:117-129 | an analyzer or synonym-map entry that is None or empty is left out |
| Fields.CollectionWire | azuresearch/indexes/field.py:163-172 | on the wire a `CollectionField` has `sortable` and `key` False and type `Collection(Edm.String)` |
| Fields.GeographyWire | azuresearch/indexes/field.py:205-213 | on the wire a `GeographyPointField` has `facetable` False |
| Fields.CollectionSortableThroughParams | azuresearch/indexes/field.py:123-126 | an extra keyword `sortable_` camel-cases onto `sortable` and overrides the forced False |
| Fields.LoadField | azuresearch/indexes/field.py:132-147 | falsy data raises "data is None"; a non-dict raises; a missing or unknown `type` is a `KeyError`; on success the class is `TYPES[type]` |
| Fields.DataAfterLoad | azuresearch/indexes/field.py:142 | after `load` the caller's dict has lost its `type` entry |
| Fields.DataAfterLoadKeeps | azuresearch/indexes/field.py:142 | `load` leaves every other entry of the caller's dict |
| Fields.FieldRoundTrip | azuresearch/indexes/field.py:105-147 | `Field.load(f.to_dict())` gives back f, except the index name, which `to_dict` does not send, for every field of a registered class with no params whose always-sent attributes are not empty and whose optional ones are None or not empty |
| Suggesters.NewSuggester | azuresearch/indexes/suggester.py:8-12 | construction succeeds exactly when `name` and `source_fields` are given and `service_name` is not; `search_mode` defaults to analyzing infix matching; every other keyword but `endpoint` is a param |
| Suggesters.DefaultMode | azuresearch/indexes/suggester.py:8 | a suggester built without a search mode uses `analyzingInfixMatching` |
| Suggesters.ListCopy | azuresearch/indexes/suggester.py:22 | the copy succeeds exactly for iterables, with one element per item: a list is copied, a string gives its characters, a dict its keys |
| Suggesters.SuggesterToDict | azuresearch/indexes/suggester.py:19-33 | `to_dict` fails exactly when the source fields cannot be iterated |
| Suggesters.SuggesterWire | azuresearch/indexes/suggester.py:19-33 | without params the payload holds the name, the copied source fields and the search mode, each unless empty |
| Suggesters.SuggesterParamWins | azuresearch/indexes/suggester.py:26-29 | a param that camel-cases onto a wire key replaces the fixed entry |
| Suggesters.SuggesterDictFixed | azuresearch/indexes/suggester.py:19-33 | a suggester with a list of source fields and no empty entry is sent as its fixed dict |
| Suggesters.LoadSuggester | azuresearch/azure_search_object.py:33-43 | the inherited `load`: a non-dict raises "Failed to parse input as Dict" |
| Suggesters.LoadWire | azuresearch/azure_search_object.py:33-43 | loading a payload with the three wire keys gives the suggester with those values and no params |
| Suggesters.SuggesterRoundTrip | azuresearch/indexes/suggester.py:19-33 | `load(to_dict(s)) == s` for a suggester without params whose name, source-field list and mode are not empty |
| Analyzers.NewCustomAnalyzer | azuresearch/analyzers/custom_analyzer.py:13-26 | construction succeeds exactly when `name` is given; `index_name` defaults to None and `analyzer_type` to the custom-analyzer OData type; the other keywords are params |
| Analyzers.AnalyzerFixed | azuresearch/analyzers/custom_analyzer.py:31-37 | the fixed payload has the five keys in source order, `token_filters` still in snake case |
| Analyzers.AnalyzerWireGet | azuresearch/analyzers/custom_analyzer.py:28-45 | without params the type is sent under `@odata.type`, the token filters under `tokenFilters`, and every value under its wire key unless empty |
| Analyzers.DefaultTypeSent | azuresearch/analyzers/custom_analyzer.py:16 | an analyzer built without `analyzer_type` is sent as `#Microsoft.Azure.Search.CustomAnalyzer` |
| Analyzers.AnalyzerParamWins | azuresearch/analyzers/custom_analyzer.py:38-41 | a param that camel-cases onto a wire key replaces the fixed entry |
| Analyzers.AnalyzerWireForm | azuresearch/analyzers/custom_analyzer.py:28-45 | an analyzer without params and with every value set is sent as its five values, in order, under the wire keys |
| Analyzers.LoadCustomAnalyzer | azuresearch/analyzers/custom_analyzer.py:48-59 | a non-dict raises; otherwise the extra keywords overwrite the data before the keys are snake-cased and the constructor is called |
| Analyzers.LoadedFromWire | azuresearch/analyzers/custom_analyzer.py:56-58 | the keywords `load` builds from a payload and an index name: each entry under its snake-cased key, the index name last |
| Analyzers.AnalyzerReload | azuresearch/analyzers/custom_analyzer.py:48-59 | `load(a.to_dict(), index_name=x)` stores x, keeps the default type and holds the sent type only as a param; sending it again gives the same payload |
| Analyzers.ResentPayload | azuresearch/analyzers/custom_analyzer.py:38-41 | the reloaded analyzer's `@odata.type` param overrides the default type in place, so the payload is unchanged |
| ScoringProfiles.NewProfileText | azuresearch/indexes/scoring_profile.py:69-71 | construction succeeds exactly when `weights` is given; every other keyword is a param |
| ScoringProfiles.ProfileTextWeights | azuresearch/indexes/scoring_profile.py:73-84 | without params a text sends its weights unless they are None or empty |
| ScoringProfiles.LoadProfileText | azuresearch/indexes/scoring_profile.py:86-93 | a non-dict raises "Failed to parse input as Dict" |
| ScoringProfiles.ProfileTextRoundTrip | azuresearch/indexes/scoring_profile.py:73-93 | `load(t.to_dict()) == t` for a text without params and with non-empty weights |
| ScoringProfiles.InterpolationWarning | azuresearch/indexes/scoring_profile.py:146-150 | a set interpolation outside the four supported ones warns, and a list or dict raises `TypeError` |
| ScoringProfiles.NewScoringFunction | azuresearch/indexes/scoring_profile.py:107-127 | construction succeeds exactly when `type` is given and the interpolation check does not raise; it reports whether the check warned; unbound keywords are params |
| ScoringProfiles.FunctionFixed | azuresearch/indexes/scoring_profile.py:130-139 | the fixed payload has the eight keys in source order |
| ScoringProfiles.FunctionWireForm | azuresearch/indexes/scoring_profile.py:129-144 | without params a function is sent as its fixed entries, the empty ones left out |
| ScoringProfiles.FunctionWireGet | azuresearch/indexes/scoring_profile.py:129-144 | without params each attribute is sent under its camel-cased name unless it is empty |
| ScoringProfiles.LoadScoringFunction | azuresearch/azure_search_object.py:33-43 | the inherited `load`: a non-dict raises |
| ScoringProfiles.FunctionKwOnlyParameters | azuresearch/azure_search_object.py:42-43 | the keywords `load` builds from a sent function are all constructor parameters |
| ScoringProfiles.FunctionRoundTrip | azuresearch/indexes/scoring_profile.py:129-144 | `load(fn.to_dict()) == fn` for a function without params whose type is set and whose values are None or non-empty |
| ScoringProfiles.NewScoringProfile | azuresearch/indexes/scoring_profile.py:16-23 | construction succeeds exactly when `name` is given; `text` defaults to None; a missing or None `functions` becomes `[]` |
| ScoringProfiles.TextDict | azuresearch/indexes/scoring_profile.py:34 | `self.text.to_dict()` succeeds exactly for a text object |
| ScoringProfiles.FunctionsDict | azuresearch/indexes/scoring_profile.py:35 | an empty list gives None, a non-empty list of functions their dicts, a falsy plain value None; a truthy plain value has no `to_dict` |
| ScoringProfiles.ProfileToDict | azuresearch/indexes/scoring_profile.py:31-42 | `to_dict` succeeds exactly when the text and the functions convert; a profile without a text object raises `AttributeError` |
| ScoringProfiles.ProfileWire | azuresearch/indexes/scoring_profile.py:31-42 | without params a profile sends its name and text unless empty, and its functions only when there are some |
| ScoringProfiles.LoadScoringProfile | azuresearch/indexes/scoring_profile.py:44-58 | a non-dict raises "Failed to parse input as Dict" |
| ScoringProfiles.WithLoadedText | azuresearch/indexes/scoring_profile.py:50-51 | replacing `text` by the loaded object keeps every other keyword a plain value |
| ScoringProfiles.WithLoadedFunctions | azuresearch/indexes/scoring_profile.py:52-54 | replacing `functions` by the loaded objects keeps every other keyword a plain value |
| ScoringProfiles.LoadedFunctionsPut | azuresearch/indexes/scoring_profile.py:52-54 | the loaded functions replace the `functions` entry in place |
| ScoringProfiles.ProfileRoundTrip | azuresearch/indexes/scoring_profile.py:16-58 | `load(p.to_dict()) == p` for a profile with a text object and either no functions (the constructor's `[]`, sent as None, stripped, and restored as `[]`) or a non-empty list of functions that each reload |
| Documents.FieldCheck | azuresearch/document.py:16-18 | a field raises exactly when it has a Python type and its name is unhashable, or the document holds a value of another type under it; an untyped field or an absent name never raises |
| Documents.DocumentSet.CheckDocument | azuresearch/document.py:12-19 | the loop over the index's fields returns what the specification `DocumentCheck` gives: True, or the first field's error |
| Documents.DocumentCheckFirst | azuresearch/document.py:12-19 | `check_document` returns True exactly when no field raises, and otherwise raises what the first raising field raises |
| Documents.UncheckedFieldIgnored | azuresearch/document.py:16 | a field without a Python type, or whose name the document lacks, makes no difference wherever it stands |
| Documents.Tagged | azuresearch/document.py:27 | the tag is set under `@search.action`, every other key keeps its value, an existing tag is overwritten in place and a new one appended |
| Documents.RetagReplaces | azuresearch/document.py:40 | tagging again replaces the earlier tag, as if only the second tag had been set |
| Documents.TaggedStillPasses | azuresearch/document.py:26-27 | a passing document still passes after tagging, unless a typed field named `@search.action` wants a type other than str |
| Documents.FirstFailure | azuresearch/document.py:25-26 | every document before the returned position passes the check, and the one at it fails |
| Documents.FirstFailureAt | azuresearch/document.py:25-26 | when the documents before i pass, the first failure is at i exactly when document i fails |
| Documents.DocumentSet.TagEach | azuresearch/document.py:24-30 | the documents before the first failing one are tagged in place and the rest untouched; the result is the body `{'value': docs}` when all pass, else the first failure's error |
| Documents.DocumentSet.Add | azuresearch/document.py:21-32 | `add` tags the documents `mergeOrUpload` in place up to the first failing one and sends them all when every one passes |
| Documents.DocumentSet.Delete | azuresearch/document.py:34-45 | `delete` does the same with the tag `delete` |
| Documents.DeleteAfterAdd | azuresearch/document.py:21-45 | after a successful `add`, `delete` on the same documents passes too and leaves them tagged as if only `delete` had run |
| FieldMappings.ToDict | azuresearch/field_mapping.py:27-35 | the payload has only the three wire keys, each holding its attribute unless None or empty, with no camel-casing |
| FieldMappings.Load | azuresearch/field_mapping.py:37-56 | falsy data raises "data is Null", a non-dict "Failed to load class", and every other dict loads; a key present in the data gives the attribute its value, and a missing key gives None |
| FieldMappings.RoundTrip | azuresearch/field_mapping.py:27-56 | `load(to_dict(fm)) == fm` when every attribute is None or non-empty and at least one is set |
| FieldMappings.AllNoneDoesNotRoundTrip | azuresearch/field_mapping.py:27-56 | a mapping with every attribute None sends `{}`, which `load` rejects as falsy |
| FieldMappings.EmptyTargetComesBackAsNone | azuresearch/field_mapping.py:27-56 | an empty-string target is dropped by `to_dict` and comes back as None |
| DataSources.NewDataSource | azuresearch/data_source.py:21-28 | construction succeeds exactly when name, connection string and container name are given and `service_name` is not; the type defaults to `azureblob`, the description to None; the other keywords but `endpoint` are params |
| DataSources.DefaultTypeAndDescription | azuresearch/data_source.py:21-28 | a data source built without type or description reads from `azureblob` and has no description |
| DataSources.Block | azuresearch/data_source.py:35-36 | a nested block holds its one value and is never empty, so it is never stripped |
| DataSources.DataSourceWire | azuresearch/data_source.py:30-45 | without params the `credentials` and `container` blocks are always sent, and name, description and type unless empty |
| DataSources.NoDescriptionOmitted | azuresearch/data_source.py:30-45 | a description of None is not sent |
| DataSources.DataSourceParamWins | azuresearch/data_source.py:38-41 | a param that camel-cases onto a wire key is what is sent there |
| DataSources.NestedGet | azuresearch/data_source.py:57-58 | `x.get(k)` succeeds exactly on a dict, giving the value or None |
| DataSources.LoadDataSource | azuresearch/data_source.py:47-60 | a non-dict raises "Failed to parse input as Dict"; a missing or non-dict `credentials` or `container` raises `AttributeError` |
| DataSources.LoadPullsNested | azuresearch/data_source.py:57-60 | a loaded data source takes its connection string from `credentials.connectionString` and its container name from `container.name` |
| DataSources.LoadSteps | azuresearch/data_source.py:57-60 | with readable blocks, `load` is the constructor on the snake-cased data extended with the two nested values |
| DataSources.LoadPayload | azuresearch/data_source.py:47-60 | a payload in the service's shape loads to the data source whose params bag carries `type`, `credentials` and `container` |
| DataSources.LoadThenToDict | azuresearch/data_source.py:30-60 | `load(d).to_dict() == d` exactly, key order included, for a payload with the five keys in `to_dict`'s own order and no empty value: the loaded params override the fixed keys in place |
| DataSources.LoadThenToDictAnyOrder | azuresearch/data_source.py:30-60 | `load(d).to_dict()` equals `d` up to key order for any payload with distinct keys, a name, a type, readable `credentials` and `container` blocks, no None or empty value, and keys that survive the snake/camel round trip without snake-casing onto a constructor argument: the load succeeds, and the result has exactly the keys of `d`, each with the value it has in `d` |
| Skills.NewSkillInput | azuresearch/skills/skill.py:162-165 | construction fails exactly when `name` or `source` is missing; the name and source are the ones given; the params bag holds every other keyword of the call and nothing else |
| Skills.NewSkillOutput | azuresearch/skills/skill.py:191-195 | construction fails exactly when `name` or `target_name` is missing; the name, target name and a given multiple-results flag are the ones given, the flag defaulting to False; the params bag holds every other keyword and nothing else |
| Skills.SkillInputRoundTrip | azuresearch/skills/skill.py:167-182 | `SkillInput.load(i.to_dict()) == i` for an input without params whose name and source are set |
| Skills.SkillOutputRoundTrip | azuresearch/skills/skill.py:197-211 | `SkillOutput.load(o.to_dict())` gives the output back with its multiple-results flag reset to False, since `to_dict` does not write it |
| Skills.FlagLostOnRoundTrip | azuresearch/skills/skill.py:197-211 | an output with the flag set comes back from the round trip without it |
| Skills.IndexZero | azuresearch/skills/skill.py:30 | `value[0]` succeeds exactly on a non-empty list or string |
| Skills.TakeInputs | azuresearch/skills/skill.py:28-32 | the `inputs` argument is accepted exactly when it is a non-empty list of inputs, and taken as it is |
| Skills.TakeOutputs | azuresearch/skills/skill.py:36-40 | the `outputs` argument is accepted exactly when it is a non-empty list of outputs, and taken as it is |
| Skills.InitSkill | azuresearch/skills/skill.py:12-50 | inputs are the given list or default to `[]`; a bad `inputs` raises; missing outputs raise "outputs must be provided"; `@odata.type` wins over `skill_type`; the context is the given one or None; the params bag is the other keywords, none of them reserved |
| Skills.InitSkillParams | azuresearch/skills/skill.py:49-50 | every keyword other than the five reserved ones is in the params bag with its value, and every entry of the bag is such a keyword |
| Skills.InputDicts | azuresearch/skills/skill.py:60 | `[inp.to_dict() for inp in self.inputs]`, element by element |
| Skills.OutputDicts | azuresearch/skills/skill.py:61 | `[outp.to_dict() for outp in self.outputs]`, element by element |
| Skills.SkillDictNoParams | azuresearch/skills/skill.py:52-71 | without params the payload is the fixed dict stripped of empty values; its keys are camel-cased already |
| Skills.LoadSkill | azuresearch/skills/skill.py:132-154 | falsy data raises "data is null", a non-dict its own message, and a missing `@odata.type`, `inputs` or `outputs` key each raise in that order |
| Skills.LoadSkillOn | azuresearch/skills/skill.py:148-153 | with the three keys present and both lists loadable, `load` replaces the lists by the loaded objects and calls the constructor |
| Skills.LoadedKwargsPlain | azuresearch/skills/skill.py:152 | snake-casing keeps the object lists under `inputs` and `outputs` and plain values everywhere else |
| Skills.SkillRoundTrip | azuresearch/skills/skill.py:52-154 | `Skill.load(s.to_dict())` rebuilds the skill, with every output's multiple-results flag reset to False |
| Skills.NoInputsDoesNotRoundTrip | azuresearch/skills/skill.py:143-144 | a skill without inputs is sent without an `inputs` key, since the empty list is stripped, so `load` refuses its own payload |
| Skills.ResetFlags | azuresearch/skills/skill.py:197-211 | the outputs as `load` returns them: same length, each with the flag False and all else kept |
| SkillWiring.DocPath | azuresearch/skills/skill.py:97-100 | the source path of an output is `/document/` + its target + `/*` when it has several results; a target that is not a string raises TypeError, and only then |
| SkillWiring.DocPathShape | azuresearch/skills/skill.py:97-100 | such a path starts with `/document/`, ends in `/*` exactly when the output has several results, and holds the target in between |
| SkillWiring.OutputFieldMappings | azuresearch/skills/skill.py:73-80 | one mapping per output, in order, from its document path to its name; fails exactly when some target is not a string |
| SkillWiring.Skill.constructor | azuresearch/skills/skill.py:28-50 | the object holds the given skill state |
| SkillWiring.Skill.GetOutputFieldMappings | azuresearch/skills/skill.py:73-80 | the loop builds exactly `OutputFieldMappings(outputs)` |
| SkillWiring.Skill.AddSource | azuresearch/skills/skill.py:82-110 | the loop over the other skill's outputs leaves the inputs and the exception that `AddAll` gives; nothing but `inputs` changes |
| SkillWiring.Skill.WireInput | azuresearch/skills/skill.py:96-110 | every input named after the output takes its source; when none is, one new input is appended |
| SkillWiring.Contains | azuresearch/skills/skill.py:92 | `name in include_list`: list membership; a dict key, TypeError for an unhashable name; on a string, the substring test for a string name and TypeError otherwise; any other container raises |
| SkillWiring.IsSubstringAt | azuresearch/skills/skill.py:92 | a string is `in` another exactly when it occurs in it at some position |
| SkillWiring.Selected | azuresearch/skills/skill.py:89-93 | every output is taken when the include list is falsy; with a list, exactly the listed ones |
| SkillWiring.SetSources | azuresearch/skills/skill.py:102-105 | same length; the inputs with the name take the new source, all others are unchanged |
| SkillWiring.AddOneFrame | azuresearch/skills/skill.py:95-110 | one output keeps every existing input's name and position, touches only inputs with its name, and appends only inputs with its name |
| SkillWiring.AddAllFrame | azuresearch/skills/skill.py:82-110 | `add_source` keeps every input in place with its name, leaves untouched the inputs whose name no selected output carries, and every appended input is named after an output |
| SkillWiring.AddAllWires | azuresearch/skills/skill.py:82-110 | with distinct output names and no exception, every selected output ends up wired: some input has its name and every such input reads its document path |
| SkillWiring.AddAllKeepsSources | azuresearch/skills/skill.py:82-110 | an input name carried by no output the include list selects keeps its inputs as they were, and nothing with that name is appended |
| SkillWiring.Skill.RemoveSource | azuresearch/skills/skill.py:113-130 | neither or both arguments raise with the source's messages and change nothing; otherwise the inputs are what the as-written scans (`RemoveScanAll`, `RemoveScan`) leave |
| SkillWiring.Skill.ScanRemove | azuresearch/skills/skill.py:127-130 | the remove-while-iterating loop leaves exactly `RemoveScan(inputs, n, 0)` |
| SkillWiring.WithoutNameKeeps | azuresearch/skills/skill.py:127-130 | the intended removal keeps exactly the inputs not carrying the name, and no more |
| SkillWiring.WithoutNames | azuresearch/skills/skill.py:121-125 | the intended removal by a skill keeps exactly the inputs named after none of its outputs |
| SkillWiring.RemoveScanFrom | azuresearch/skills/skill.py:127-130 | from any position, the as-written scan removes exactly the named inputs when no two of them are adjacent |
| SkillWiring.RemoveScanRemovesNamed | azuresearch/skills/skill.py:127-130 | `remove_source(source_name=n)` removes exactly the inputs named n, keeping the rest in order, when no two of them are adjacent |
| SkillWiring.AdjacentNamedInputSurvives | azuresearch/skills/skill.py:127-130 | with two adjacent inputs of the name, the as-written scan keeps the second one |
| SkillWiring.DistinctWithoutName | azuresearch/skills/skill.py:127-130 | removing a name keeps input names distinct |
| SkillWiring.RemoveScanAllRemovesNamed | azuresearch/skills/skill.py:121-125 | `remove_source(skill)` removes exactly the inputs named after its outputs when input names are distinct |
| SkillWiring.Skill.RemoveInputByName | azuresearch/skills/predefined/cognitive_skills.py:52-57 | the helper `set_inputs` calls, as a filter: exactly the inputs not named n remain, in order |
| CognitiveSkills.SetInput | azuresearch/skills/predefined/cognitive_skills.py:51-59 | one argument of `set_inputs`: None changes nothing; a string or a parameter replaces the inputs of that name; any other value raises with the source's message, and only it |
| CognitiveSkills.SetInputArg | azuresearch/skills/predefined/cognitive_skills.py:51-59 | in place: the inputs become `SetInput`'s result, or stay as they were when it raises; nothing else changes |
| CognitiveSkills.SetKeyPhraseInputs | azuresearch/skills/predefined/cognitive_skills.py:49-70 | `KeyPhraseExtractionSkill.set_inputs`: text first, then language code, each by the key-phrase path rule; a raise on the language code keeps the text change |
| CognitiveSkills.SetSplitInputs | azuresearch/skills/predefined/cognitive_skills.py:303-323 | `SplitSkill.set_inputs`: the same two steps with the parameter's bare name as the source |
| CognitiveSkills.SetInputReplaces | azuresearch/skills/predefined/cognitive_skills.py:51-57 | after a string or parameter argument, exactly one input has that name, it is last and reads the argument's source, and every other input is kept |
| CognitiveSkills.KeyPhrasePathsMatchOutputs | azuresearch/skills/predefined/cognitive_skills.py:55-67 | the key-phrase text path of a multi-valued parameter, and the language path of a single-valued one, is the path that parameter's output mapping writes |
| CognitiveSkills.SplitSourceIsBareName | azuresearch/skills/predefined/cognitive_skills.py:308-310 | `SplitSkill` wires any parameter by its bare name; unless that name starts with `/document/`, the input does not read the path the parameter's output writes |
| CognitiveSkills.KeyPhraseSetInputsExample | azuresearch/skills/predefined/cognitive_skills.py:49-70 | one worked example of the general `SetInputReplaces`: the default key-phrase inputs wired to the split pages and a language code give `text <- /document/pages/*` and `languageCode <- /document/languageCode` |
| CognitiveSkills.SelectCategories | azuresearch/skills/predefined/cognitive_skills.py:147-161 | a category's parameter is chosen exactly when `'Category' in categories` holds, in table order; a container kind Python rejects raises |
| CognitiveSkills.CategoryParameters | azuresearch/skills/predefined/cognitive_skills.py:147-161 | one parameter per category row, in table order |
| CognitiveSkills.ListOf | azuresearch/skills/predefined/cognitive_skills.py:166 | `list(categories)`: the list itself, the characters of a string, the keys of a dict |
| CognitiveSkills.EntityRecognitionSetup | azuresearch/skills/predefined/cognitive_skills.py:137-169 | None categories raise ValueError with the source's message; the chosen parameters are a subsequence of the category table; `categories` in params is `list(categories)` (the list itself, a string's characters or a dict's keys); `categories` is a named parameter, so the extra keywords never hold it |
| CognitiveSkills.EntityDefaultOutputs | azuresearch/skills/predefined/cognitive_skills.py:182-197 | one output per chosen parameter, in order |
| CognitiveSkills.SetEntityDefaultOutputs | azuresearch/skills/predefined/cognitive_skills.py:182-197 | in place: the outputs become exactly the chosen parameters' outputs; nothing else changes |
| CognitiveSkills.SetEntityInputs | azuresearch/skills/predefined/cognitive_skills.py:174-175 | one `text` input reading the parameter's name is appended; nothing else changes |
| CognitiveSkills.OrganizationOnly | azuresearch/skills/predefined/cognitive_skills.py:137-197 | choosing only `Organization` gives the single default output `organizations` |
| CognitiveSkills.OrganizationSelected | azuresearch/skills/predefined/cognitive_skills.py:147-161 | choosing only `Organization` selects only its parameter |
| CognitiveSkills.SelectOnly | azuresearch/skills/predefined/cognitive_skills.py:147-161 | when exactly one category is listed, exactly its parameter is chosen |
| CognitiveSkills.SelectNone | azuresearch/skills/predefined/cognitive_skills.py:147-161 | when no category is listed, nothing is chosen |
| CognitiveSkills.EntityDefaultOutputsWellFormed | azuresearch/skills/predefined/cognitive_skills.py:182-197 | every possible choice of categories gives outputs with distinct names, each surviving the round trip and mapped to a document path |
| CognitiveSkills.EntityParametersDistinct | azuresearch/skills/predefined/cognitive_skills.py:147-161 | the category table yields pairwise distinct parameters |
| CognitiveSkills.LowerString | azuresearch/skills/predefined/cognitive_skills.py:465-466 | `str.lower()` on ASCII: same length, each character lower-cased |
| CognitiveSkills.LowerStringProperties | azuresearch/skills/predefined/cognitive_skills.py:465-466 | lower-casing leaves no uppercase letter, changes text that has none not at all, and is idempotent |
| CognitiveSkills.ImageAnalysisDefaultOutputs | azuresearch/skills/predefined/cognitive_skills.py:462-468 | one output per visual feature, in order, named and targeted by the lower-cased feature |
| CognitiveSkills.FeatureOutputShape | azuresearch/skills/predefined/cognitive_skills.py:462-468 | each feature output is single-valued, lower-case, named as targeted, mapped to `/document/<feature>`, and survives the round trip exactly when the feature is non-empty |
| CognitiveSkills.EntryMappings | azuresearch/skills/predefined/cognitive_skills.py:512-518 | one `fields_mapping` entry yields a mapping for each supported name it carries, and only those |
| CognitiveSkills.TranslateFieldsMapping | azuresearch/skills/predefined/cognitive_skills.py:510-518 | every mapping produced comes from some entry with a supported name, and every such entry produces its mapping |
| CognitiveSkills.TranslateInOrder | azuresearch/skills/predefined/cognitive_skills.py:510-518 | for a table of distinct names, the translation has exactly one mapping per entry with a supported name, in order: the j-th mapping reads from the path of the j-th supported entry's name and targets its field; other entries are dropped |
| CognitiveSkills.OutputFieldMappingFor | azuresearch/skills/predefined/cognitive_skills.py:510-518 | the constructor loop gives no mappings without `fields_mapping` and `TranslateFieldsMapping` otherwise |
| CognitiveSkills.EntryMappingsAtMostOne | azuresearch/skills/predefined/cognitive_skills.py:512-518 | with distinct supported names, an entry yields one mapping when its name is supported and none otherwise |
| CognitiveSkills.OcrSourcesDistinct | azuresearch/skills/predefined/cognitive_skills.py:491-493 | the OCR skill's supported names are distinct |
| CognitiveSkills.OcrFieldsMappingExample | azuresearch/skills/predefined/cognitive_skills.py:510-518 | `text`, an unknown name and `layoutText` give the two OCR mappings in order, ignoring the unknown entry |
| CognitiveSkills.OcrEntry | azuresearch/skills/predefined/cognitive_skills.py:512-518 | what one entry yields against the OCR table: `myOcrText`, `myLayoutText` or nothing |
| CognitiveSkills.DefaultInputsWellFormed | azuresearch/skills/predefined/cognitive_skills.py:46-531 | every predefined skill's default inputs have distinct names and read non-empty `/document/` paths that survive the round trip |
| CognitiveSkills.DefaultOutputsWellFormed | azuresearch/skills/predefined/cognitive_skills.py:72-537 | every predefined skill's default outputs have distinct names, survive the round trip and map to a document path |
| CognitiveSkills.DefaultOutputPaths | azuresearch/skills/predefined/cognitive_skills.py:72-75 | the key phrases are mapped element-wise from `/document/keyPhrases/*`, the split pages as one field from `/document/pages` |
| Skillsets.NewSkillset | azuresearch/skills/skillset.py:14-29 | construction succeeds exactly when there is a non-empty list of skills and no clashing `service_name`; None (omitted or passed) or an empty list raises with the source's message; the skillset holds the arguments and the remaining keywords |
| Skillsets.SkillDicts | azuresearch/skills/skillset.py:38 | one skill dict per skill, in order |
| Skillsets.Subscript | azuresearch/skills/skillset.py:70 | `data['cognitiveServices']['key']`: a dict looks the key up or raises KeyError; any other value raises TypeError |
| Skillsets.LoadSkillset | azuresearch/skills/skillset.py:52-75 | a non-dict and a missing `skills` key raise with the source's messages; a missing name becomes None and a missing description `''`; without `cognitiveServices` the key is None; no other key is kept |
| Skillsets.SkillsetOutputFieldMappings | azuresearch/skills/skillset.py:77-83 | succeeds exactly when every skill has output field mappings, otherwise raises AttributeError |
| Skillsets.GetOutputFieldMappings | azuresearch/skills/skillset.py:77-83 | the accumulating loop gives exactly `SkillsetOutputFieldMappings` |
| Skillsets.OutputFieldMappingsCollect | azuresearch/skills/skillset.py:77-83 | the result holds every mapping of every skill and nothing else, and is as long as all of them together |
| Skillsets.CognitiveServicesKey | azuresearch/skills/skillset.py:39-46 | `cognitive_services` is sent as `cognitiveServices`, and snake-cases back |
| Skillsets.SkillsetDictCamel | azuresearch/skills/skillset.py:31-49 | without extra keywords, `to_dict` is the camel-cased fixed dict with empty values removed |
| Skillsets.SkillsetFixedCamel | azuresearch/skills/skillset.py:34-46 | camel-casing the fixed dict renames only `cognitive_services` |
| Skillsets.SkillsetCamelDistinct | azuresearch/skills/skillset.py:34-46 | the sent keys are distinct |
| Skillsets.SkillsetWireGets | azuresearch/skills/skillset.py:31-49 | the payload holds the name and description when they are not empty, the skills when there are any, and always the account block with the key |
| Skillsets.NameEntry | azuresearch/skills/skillset.py:36 | the name is sent unless empty |
| Skillsets.DescriptionEntry | azuresearch/skills/skillset.py:37 | the description is sent unless empty |
| Skillsets.SkillsEntry | azuresearch/skills/skillset.py:38 | the skill dicts are sent unless there are none |
| Skillsets.CognitiveServicesEntry | azuresearch/skills/skillset.py:39-43 | the account block is always sent, with its fixed type and description |
| Skillsets.ReloadedAll | azuresearch/skills/skillset.py:62 | the skills as `load` returns them, one per skill, in order |
| Skillsets.LoadSkillsBack | azuresearch/skills/skillset.py:62 | loading the sent skill dicts gives the skills back with their output flags reset |
| Skillsets.CognitiveServicesKeyBack | azuresearch/skills/skillset.py:69-70 | the key is read back from the account block |
| Skillsets.LoadSkillsetOn | azuresearch/skills/skillset.py:52-75 | `load` on a dict whose skills and account block load builds the skillset from them, with the defaults for name and description |
| Skillsets.SkillsetWireReads | azuresearch/skills/skillset.py:31-75 | what `load` reads from a round-trippable skillset's payload is its skills, reloaded, and its key |
| Skillsets.SkillsEntryLoads | azuresearch/skills/skillset.py:62 | a sent skills entry loads back to the reloaded skills |
| Skillsets.KeyEntryReads | azuresearch/skills/skillset.py:70 | a sent account block yields its key |
| Skillsets.SkillsetWireDefaults | azuresearch/skills/skillset.py:63-67 | an empty name comes back as None and an empty description as `''` |
| Skillsets.SkillsetRoundTrip | azuresearch/skills/skillset.py:31-75 | `Skillset.load(ss.to_dict())` rebuilds the skillset, with empty name and description replaced by the defaults and each skill as its own round trip gives it |
| Skillsets.NoSkillsStripped | azuresearch/skills/skillset.py:38-48 | an empty skill list is not sent |
| Skillsets.NoSkillsNotFound | azuresearch/skills/skillset.py:59-60 | so `load` of that payload raises `Skills not found` |
| IndexerParams.ConfigFixed | azuresearch/indexers/indexer_parameters.py:27-32 | the default configuration's four entries, under their snake-case keys, in order |
| IndexerParams.NewIndexerParameters | azuresearch/indexers/indexer_parameters.py:6-24 | the limits default to -1; a falsy configuration is replaced by the default one; every other keyword goes to the params bag |
| IndexerParams.ParametersFixed | azuresearch/indexers/indexer_parameters.py:42-44 | the three entries of `to_dict`, in order |
| IndexerParams.LoadIndexerParameters | azuresearch/azure_search_object.py:33-43 | the generic `load` fails exactly on a value that is not a dict |
| IndexerParams.ParsingModeKey | azuresearch/indexers/indexer_parameters.py:28 | `parsing_mode` is sent as `parsingMode` |
| IndexerParams.ExcludedExtensionsKey | azuresearch/indexers/indexer_parameters.py:29 | `excluded_file_name_extensions` is sent as `excludedFileNameExtensions` |
| IndexerParams.DataToExtractKey | azuresearch/indexers/indexer_parameters.py:30 | `data_to_extract` is sent as `dataToExtract` |
| IndexerParams.ImageActionKey | azuresearch/indexers/indexer_parameters.py:31 | `image_action` is sent as `imageAction` |
| IndexerParams.ConfigWireKeysDistinct | azuresearch/indexers/indexer_parameters.py:27-34 | the configuration's wire keys are distinct |
| IndexerParams.ConfigCamel | azuresearch/indexers/indexer_parameters.py:34 | camel-casing the configuration renames each key to its wire form and keeps the values |
| IndexerParams.ConfigSent | azuresearch/indexers/indexer_parameters.py:34-37 | when only the excluded-extension list is empty, stripping drops exactly that entry |
| IndexerParams.DefaultConfigurationValue | azuresearch/indexers/indexer_parameters.py:26-39 | the default configuration is `parsingMode`, `dataToExtract` and `imageAction` with their values; the empty extension list is not sent |
| IndexerParams.MaxFailedItemsKey | azuresearch/indexers/indexer_parameters.py:42 | `max_failed_items` and `maxFailedItems` are each other's forms |
| IndexerParams.MaxFailedItemsPerBatchKey | azuresearch/indexers/indexer_parameters.py:43 | `max_failed_items_per_batch` and `maxFailedItemsPerBatch` are each other's forms |
| IndexerParams.ConfigurationKey | azuresearch/indexers/indexer_parameters.py:44 | `configuration` is the same in both forms |
| IndexerParams.ParametersKeysDistinct | azuresearch/indexers/indexer_parameters.py:42-44 | the three keys, and their wire forms, are distinct |
| IndexerParams.ParametersCamel | azuresearch/indexers/indexer_parameters.py:46 | camel-casing the three entries renames each to its wire key and keeps the values |
| IndexerParams.ParametersWireGet | azuresearch/indexers/indexer_parameters.py:41-51 | each of the three values is sent under its wire key unless it is None or empty; -1 and 0 are sent |
| IndexerParams.ParametersSendOnlyOwnKeys | azuresearch/indexers/indexer_parameters.py:41-51 | whatever the params bag holds, no key but the three is sent |
| IndexerParams.DefaultParameters | azuresearch/indexers/indexer_parameters.py:6-22 | parameters built without their three arguments hold -1, -1 and the default configuration |
| IndexerParams.ParametersSentValues | azuresearch/indexers/indexer_parameters.py:41-51 | the three values under their wire keys, each unless empty |
| IndexerParams.DefaultParametersSent | azuresearch/indexers/indexer_parameters.py:6-51 | default parameters send `maxFailedItems: -1`, `maxFailedItemsPerBatch: -1` and the default configuration |
| IndexerParams.AllSent | azuresearch/indexers/indexer_parameters.py:41-51 | with no empty value, the three entries are sent in order under their wire keys |
| IndexerParams.NewFromLoaded | azuresearch/indexers/indexer_parameters.py:6-24 | keywords naming exactly the three parameters, with a truthy configuration, build parameters holding them and an empty bag |
| IndexerParams.ParametersRoundTrip | azuresearch/indexers/indexer_parameters.py:41-51 | `IndexerParameters.load(p.to_dict()) == p` when both limits are set and the configuration is truthy |
| IndexerParams.LoadSent | azuresearch/azure_search_object.py:33-43 | loading the sent three entries builds parameters holding their values |
| IndexerParams.SentAndLoadedKw | azuresearch/azure_search_object.py:69-83 | snake-casing what `to_dict` sends gives back the three entries |
| Indexers.PlainArgs | azuresearch/indexers/indexer.py:18-22 | the keyword arguments as plain values, one per argument, in order |
| Indexers.NewIndexerKeepingMappings | azuresearch/indexers/indexer.py:18-36 | the corrected constructor: it succeeds exactly when `NewIndexer` does and builds the same indexer, except that the field mappings given are kept and the two defaults are installed only when none are given |
| Indexers.GivenMappingSentFirst | azuresearch/indexers/indexer.py:33-36 | with the corrected constructor, a single mapping given is what `to_dict` sends under `fieldMappings`, so its dict comes first |
| Indexers.NewIndexer | azuresearch/indexers/indexer.py:18-36 | construction succeeds exactly when the four names are given and `service_name` is not; a missing name is reported; the names, output mappings, schedule, flag and parameters are the arguments or their defaults; the field mappings are always the two defaults; other keywords go to the params bag |
| Indexers.PlainAt | azuresearch/indexers/indexer.py:18-28 | the plain value stored under a required argument |
| Indexers.PlainOr | azuresearch/indexers/indexer.py:19-31 | the plain value of an optional argument, or its default |
| Indexers.IndexerApiParams | azuresearch/base_api_call.py:17-27 | a `service_name` keyword clashes with the one the indexer passes and raises; `endpoint` is taken out of the bag |
| Indexers.ArgToDict | azuresearch/indexers/indexer.py:66-68 | only parameter and schedule objects have a `to_dict`; any other stored value raises |
| Indexers.MappingDicts | azuresearch/indexers/indexer.py:63-65 | one mapping dict per field mapping, in order |
| Indexers.MappingsDict | azuresearch/indexers/indexer.py:63-65 | a falsy value gives None; a truthy one succeeds exactly when it is a list of mappings, and is sent as their dicts |
| Indexers.ScheduleDict | azuresearch/indexers/indexer.py:66 | a falsy schedule gives None, a truthy one its `to_dict` |
| Indexers.IndexerFixed | azuresearch/indexers/indexer.py:58-69 | the nine fixed entries under their keys, in order |
| Indexers.IndexerToDict | azuresearch/indexers/indexer.py:55-78 | succeeds exactly when the output mappings, the schedule and the parameters convert; parameters without a `to_dict` always fail |
| Indexers.WithLoadedParameters | azuresearch/indexers/indexer.py:87-88 | a `parameters` entry that is not a dict raises as `IndexerParameters.load` does; otherwise it is replaced by the loaded object |
| Indexers.LoadIndexer | azuresearch/indexers/indexer.py:80-93 | a non-dict raises; a `schedule` entry always raises, because the schedule class has no `load`; bad parameters raise |
| Indexers.PlainArgsKeys | azuresearch/indexers/indexer.py:18-22 | the plain arguments have the keys of the arguments |
| Indexers.LoadedArgsPlain | azuresearch/indexers/indexer.py:87-93 | after snake-casing, every argument but `parameters` is a plain value |
| Indexers.ConstructedDefaults | azuresearch/indexers/indexer.py:21-36 | whatever mappings are passed, a new indexer holds the two default mappings, and its parameters default to `IndexerParameters()` |
| Indexers.IndexerKeysDistinct | azuresearch/indexers/indexer.py:58-69 | the nine keys are distinct |
| Indexers.IndexerKeysCamel | azuresearch/indexers/indexer.py:74 | camel-casing leaves the nine keys as written |
| Indexers.FixedWireGet | azuresearch/indexers/indexer.py:71-78 | without params, each fixed entry is sent under its key unless it is None or empty |
| Indexers.SentFixed | azuresearch/indexers/indexer.py:58-69 | the fixed dict `to_dict` builds holds each attribute, or its converted form, at its position |
| Indexers.IndexerFixedValues | azuresearch/indexers/indexer.py:58-69 | each attribute sits at its own position of the fixed dict |
| Indexers.SentWireDict | azuresearch/indexers/indexer.py:55-78 | `to_dict` is the fixed dict merged with the params, camel-cased and stripped |
| Indexers.IndexerWireAt | azuresearch/indexers/indexer.py:55-78 | without params, the entry under each fixed key is the fixed value unless that is empty |
| Indexers.IndexerWireNames | azuresearch/indexers/indexer.py:58-67 | the four names are sent unless empty, and `disabled` always |
| Indexers.IndexerWireObjects | azuresearch/indexers/indexer.py:63-68 | the field mappings are sent in order, the parameters as their own dict; a falsy schedule or output-mapping list is not sent |
| Indexers.DisabledFalseSent | azuresearch/indexers/indexer.py:67 | `disabled: false` is sent |
| Indexers.DefaultMappingDicts | azuresearch/indexers/indexer.py:33-36 | the two default mappings send the blob path to `id` with `base64Encode`, and `content` to itself with no mapping function |
| Indexers.ConstructedMappingsSent | azuresearch/indexers/indexer.py:33-63 | every constructed indexer without params sends the two default mappings, whatever mappings it was given |
| Indexers.DefaultParametersOnWire | azuresearch/indexers/indexer.py:21-68 | an indexer built without parameters sends the default ones, whose failure limit is -1 |
| Indexers.ParametersSentWhole | azuresearch/indexers/indexer.py:68 | parameters that send something are sent as their own dict |
| Indexers.ParametersWireAt | azuresearch/indexers/indexer.py:68 | the parameters' dict is sent unless it is empty |
| Indexers.ScheduleWireAt | azuresearch/indexers/indexer.py:66 | the schedule's dict is sent unless it is empty |
| Indexers.ScheduleSentUnstripped | azuresearch/indexers/indexer_schedule.py:23-27 | a schedule is sent as `interval` and `startTime`, a None start time included: stripping does not reach into nested dicts |
| Indexers.IndexerParamWins | azuresearch/indexers/indexer.py:71-74 | a param whose key camel-cases onto a sent key replaces the fixed entry, when no other param lands there |
| Indexers.SentKeysDistinct | azuresearch/indexers/indexer.py:58-69 | the seven keys of a reloadable payload, and their snake-case forms, are distinct |
| Indexers.DataSourceNameKey | azuresearch/indexers/indexer.py:60 | `dataSourceName` loads as `data_source_name` |
| Indexers.TargetIndexNameKey | azuresearch/indexers/indexer.py:61 | `targetIndexName` loads as `target_index_name` |
| Indexers.SkillsetNameKey | azuresearch/indexers/indexer.py:62 | `skillsetName` loads as `skillset_name` |
| Indexers.FieldMappingsKey | azuresearch/indexers/indexer.py:63 | `fieldMappings` loads as `field_mappings` |
| Indexers.SentSnakeAt | azuresearch/indexers/indexer.py:91 | each sent key snake-cases to the constructor's argument name |
| Indexers.StripScheduleAndOutputs | azuresearch/indexers/indexer.py:77 | stripping a fixed dict whose output mappings and schedule alone are None drops exactly those two |
| Indexers.SentWire | azuresearch/indexers/indexer.py:71-78 | such an indexer's payload is its fixed dict without those two entries |
| Indexers.FixedCamel | azuresearch/indexers/indexer.py:74 | camel-casing keeps the fixed keys |
| Indexers.LoadedParametersEntry | azuresearch/indexers/indexer.py:87-88 | `load` puts the loaded parameters in place of their payload |
| Indexers.LoadedSnake | azuresearch/indexers/indexer.py:91 | the snake-cased arguments `load` passes, in order |
| Indexers.NewFromLoaded | azuresearch/indexers/indexer.py:18-36 | the constructor on the seven loaded arguments builds the indexer from them, with the default mappings |
| Indexers.ReloadableFixed | azuresearch/indexers/indexer.py:58-69 | a resendable indexer's fixed dict has None under the output mappings and the schedule, and nothing empty elsewhere |
| Indexers.LoadSentIndexer | azuresearch/indexers/indexer.py:80-93 | `load` on the seven sent keys with reloadable parameters replaces the sent mappings by the defaults and keeps everything else |
| Indexers.LoadSentArgs | azuresearch/indexers/indexer.py:80-93 | what `load` passes to the constructor is the payload with its parameters loaded |
| Indexers.IndexerResend | azuresearch/indexers/indexer.py:55-93 | `Indexer.load(x.to_dict())` rebuilds a resendable indexer except that its field mappings become the two defaults |
| Indexers.ResendPayload | azuresearch/indexers/indexer.py:55-78 | a resendable indexer sends its names, mappings, flag and parameters under the seven keys |
| Indexers.IndexerRoundTrip | azuresearch/indexers/indexer.py:55-93 | `Indexer.load(x.to_dict()) == x` when x already holds the default mappings |
| Indexes.Stamped | azuresearch/indexes/index.py:43-44 | the same number of fields, each with the index's name and otherwise unchanged |
| Indexes.StampFields | azuresearch/indexes/index.py:43-44 | the loop sets `index_name` on each field of the caller's list in place: the array becomes `Stamped` of what it held |
| Indexes.FieldsOf | azuresearch/indexes/index.py:33-44 | a list of fields is stamped; a plain value works only when it has no elements (nothing to stamp); otherwise the loop raises |
| Indexes.PlainArgs | azuresearch/indexes/index.py:19-31 | the keyword arguments as plain values, one per argument, in order |
| Indexes.PlainOr | azuresearch/indexes/index.py:19-41 | the plain value of an argument that is not a list argument, or its default |
| Indexes.NewIndex | azuresearch/indexes/index.py:19-46 | construction succeeds exactly when name and fields are given, `service_name` is not, and the fields can be stamped; a missing name, then missing fields, is reported; the index holds the arguments or their None defaults, and the stamped fields; other keywords go to the params bag |
| Indexes.IndexApiParams | azuresearch/base_api_call.py:17-27 | a `service_name` keyword clashes with the one the index passes and raises; `endpoint` is taken out of the bag |
| Indexes.PlainArgsKeys | azuresearch/indexes/index.py:19-31 | the plain arguments have the keys of the arguments |
| Indexes.FieldDicts | azuresearch/indexes/index.py:78 | one field dict per field, in order |
| Indexes.AnalyzerDicts | azuresearch/indexes/index.py:83 | one analyzer dict per analyzer, in order |
| Indexes.EachToDict | azuresearch/indexes/index.py:80-90 | the list comprehension succeeds exactly when every element converts, gives their dicts in order, and otherwise raises an element's error |
| Indexes.ListDicts | azuresearch/indexes/index.py:78-90 | the dicts of a stored list argument's objects; a plain value converts only when it has no elements |
| Indexes.OptionalList | azuresearch/indexes/index.py:79-90 | `[x.to_dict() for x in xs] if xs else None`: None for a falsy value, the non-empty list of dicts otherwise |
| Indexes.IndexFixed | azuresearch/indexes/index.py:76-93 | the ten fixed entries under their keys, in order |
| Indexes.IndexToDict | azuresearch/indexes/index.py:73-101 | succeeds exactly when none of the converted lists fails |
| Indexes.PlainIndexArgs | azuresearch/indexes/index.py:131-133 | the data entries as plain arguments, in order |
| Indexes.WithSuggesters | azuresearch/indexes/index.py:116-118 | with a `suggesters` key its value is replaced by the loaded suggesters, and fails exactly when one fails to load; without it nothing changes |
| Indexes.WithAnalyzers | azuresearch/indexes/index.py:120-122 | the same for `analyzers`, loaded with the index's name |
| Indexes.WithProfiles | azuresearch/indexes/index.py:124-126 | the loaded profiles are written under `scoring_profiles`, not over the raw `scoringProfiles` |
| Indexes.WithFields | azuresearch/indexes/index.py:128-129 | the same for `fields`, each loaded with `Field.load` |
| Indexes.LoadedArgs | azuresearch/indexes/index.py:116-129 | the rewritten data holds objects only under the keys `load` writes |
| Indexes.LoadIndex | azuresearch/indexes/index.py:103-133 | a non-dict raises with the source's message; a loaded index means every list it converts loaded |
| Indexes.LoadedKeySnake | azuresearch/indexes/index.py:116-131 | the keys `load` writes objects under are list arguments, and snake-casing keeps them |
| Indexes.LoadedArgsShaped | azuresearch/indexes/index.py:131-133 | after snake-casing, the constructor gets objects only under list arguments |
| Indexes.StampedIdempotent | azuresearch/indexes/index.py:43-44 | stamping twice with the same name is stamping once |
| Indexes.StampedWire | azuresearch/indexes/index.py:43-44 | the index name is not part of a field's payload: stamped fields send what the caller's fields sent |
| Indexes.IndexKeysDistinct | azuresearch/indexes/index.py:76-93 | the ten keys are distinct |
| Indexes.IndexKeysCamel | azuresearch/indexes/index.py:97 | camel-casing leaves the ten keys as written |
| Indexes.SentFixed | azuresearch/indexes/index.py:76-93 | the fixed dict `to_dict` builds holds each attribute, or its converted form, at its position |
| Indexes.SentWireDict | azuresearch/indexes/index.py:73-101 | `to_dict` is the fixed dict merged with the params, camel-cased and stripped |
| Indexes.IndexWireAt | azuresearch/indexes/index.py:73-101 | without params, the entry under each fixed key is the fixed value unless that is empty |
| Indexes.OptionalListSent | azuresearch/indexes/index.py:79-100 | a list argument is sent as its objects' dicts when truthy, and left out otherwise |
| Indexes.IndexWireFields | azuresearch/indexes/index.py:77-78 | the name is sent unless empty, and the fields' dicts in order unless there are none |
| Indexes.IndexWireOptional | azuresearch/indexes/index.py:79-92 | each optional list is sent exactly when truthy, as its objects' dicts; the CORS options and default profile only when not empty |
| Indexes.IndexParamWins | azuresearch/indexes/index.py:94-97 | a param overrides the fixed entry its key camel-cases onto |
| Indexes.IndexKeysApart | azuresearch/indexes/index.py:76-97 | no fixed key camel-cases onto another |
| Indexes.NameAndFields | tests/test_index.py:12-27 | the arguments of `Index(name, fields)` |
| Indexes.NameAndFieldsBuild | azuresearch/indexes/index.py:19-46 | `Index(name, fields)` builds, stamps the fields and has no params |
| Indexes.NameAndFieldsSent | tests/test_index.py:12-27 | `Index(name, fields).to_dict()` sends the name, the fields' own dicts in order, and no optional entry |
| Indexes.PlainIndexArgsKeys | azuresearch/indexes/index.py:131-133 | the plain arguments have the data's keys, and distinct keys stay distinct |
| Indexes.LoadedArgsKeys | azuresearch/indexes/index.py:116-129 | the rewritten data has the data's keys plus, at most, `scoring_profiles`; distinct keys stay distinct |
| Indexes.LoadedArgsLists | azuresearch/indexes/index.py:116-129 | the rewritten data holds the loaded fields, analyzers and suggesters under their own keys |
| Indexes.LoadedProfilesLast | azuresearch/indexes/index.py:124-126 | the loaded profiles are the last entry of the rewritten data |
| Indexes.LoadedListSnaked | azuresearch/indexes/index.py:131 | the field, analyzer and suggester entries survive snake-casing when no other key lands on them |
| Indexes.LoadedFields | azuresearch/indexes/index.py:128-133 | `load` builds the fields with `Field.load`, in order, and the constructor stamps them with the index's name |
| Indexes.LoadedAnalyzers | azuresearch/indexes/index.py:120-122 | `load` builds each analyzer with `CustomAnalyzer.load`, passing the data's name as `index_name` |
| Indexes.LoadedSuggesters | azuresearch/indexes/index.py:116-118 | `load` builds each suggester with `Suggester.load` |
| Indexes.LoadedProfilesWin | azuresearch/indexes/index.py:124-131 | the loaded profiles win over the raw `scoringProfiles` entry, which snake-cases onto the same key later |
| Indexes.IndexRoundTrip | azuresearch/indexes/index.py:73-133 | `Index.load(x.to_dict())` gives back x for every index whose parts reload (`IndexReloadable`): no params, a name, at least one field, each reloadable and carrying the index's name, suggesters and scoring profiles None or a non-empty list of reloadable objects, no analyzers, tokenizers or filters, CORS options and default profile None or not empty |
| Indexes.FieldsReload | azuresearch/indexes/index.py:128-129 | the dicts of reloadable fields load back, in order, to the fields without their index name |
| Indexes.SuggestersReload | azuresearch/indexes/index.py:116-118 | the dicts of reloadable suggesters load back to the suggesters, in order |
| Indexes.ProfilesReload | azuresearch/indexes/index.py:124-126 | the dicts of reloadable scoring profiles load back to the profiles, in order |
| Indexes.ReloadableSent | azuresearch/indexes/index.py:73-101 | `to_dict` of a reloadable index sends each fixed key at most once; the name; the fields' dicts, which load back; the suggesters' and profiles' dicts exactly when there are any; no analyzers, tokenizers or filters; the CORS options and default profile unless None |
| Indexes.RewrittenForm | azuresearch/indexes/index.py:116-129 | the rewriting of that payload by `load` succeeds and holds the name, the fields without their index name, the suggesters when sent, the profiles as its last entry when sent, and the CORS options and default profile unless None |
| Indexes.ReloadedArgs | azuresearch/indexes/index.py:103-133 | after snake-casing, `load` passes the constructor exactly the index's own arguments, the fields with their index name cleared, and nothing else |
| Indexes.IndexRebuilt | azuresearch/indexes/index.py:19-46 | given those arguments the constructor builds x again: it stamps the fields with the name back, and nothing is left for the params bag |

## Left out

- Network and environment: `Endpoint`, `create`, `get`, `delete`, `update`, `verify`, `Index.search`, `statistics`, `count`, `Suggester.suggest`, `Indexer.run`, `reset`, `update`, `get_status`, `DataSource.list`, the analyzer `test`/`update` calls and the final `endpoint.post` of `Documents.add`/`delete` are HTTP calls with status checks; `add` and `delete` return the payload they would post.
- JSON text: every `load` also accepts a JSON string and decodes it with `json.loads`; the model's loads take the decoded value, and a string at the top of a load is treated like any other non-dict value. `to_json` is not modelled.
- Logging and `warnings.warn`: the interpolation warning is a returned flag.
- Python runtime detail: `isinstance` follows the JSON kind, except in `Documents.FieldCheck`, which takes a `bool` for an `int` as Python does; equality is structural on JSON values (`1 == 1.0 == True` is not modelled); `str.title`/`str.lower` act on ASCII letters only.
- Positional arguments: every constructor is modelled as called with keyword arguments; when several required arguments are missing, only the first is reported, where Python names them all in one message.
- Object identity and aliasing: lists and dicts are values. The list a caller passes and later mutates, a `Field` or `SkillInput` object shared between two lists, the same document dict twice in the list passed to `add`, and the single default `IndexerParameters()` shared by every `Indexer` built without parameters are not captured. `Field.load` popping `type` out of the caller's dict and `load` rewriting the caller's `data` are modelled as values (`Fields.DataAfterLoad`), not as mutation visible to the caller.
- `Skillsets.NewSkillset`: a skillset holds its skills as values, so a skill rewired after the skillset was built is not seen through it; the `skills` argument is either no skills, a list of skill objects or a plain value, so a list whose first element is a skill and whose later elements are not is not represented.
- `Skills.InitSkill`: the extra keyword arguments must be JSON values (`ExtrasPlain`); an object passed under another keyword than `inputs` or `outputs` is not represented, and likewise a list mixing `SkillInput` objects with other values.
- `ScoringProfiles.NewScoringProfile`: the same restriction for keywords other than `text` and `functions` (`ProfileExtrasPlain`).
- `Indexes.NewIndex`: objects may be passed only under the list arguments and `fields` holds fields or a plain value (`ArgsShaped`); a list of non-field objects under `fields`, which Python would stamp with `index_name`, is not represented.
- `Indexers.NewIndexer`: objects may be passed only under the output mappings, schedule and parameters arguments (`ExtrasPlain`); `field_mappings` is a plain value, which the constructor discards anyway.
- `Fields.CollectionWire`: states "never sortable, never key" only for params that do not camel-case onto `sortable` or `key`; an extra keyword such as `sortable_` does, and overrides the pinned flag (`Fields.CollectionSortableThroughParams` shows it).
- `SearchObject.LoadEach`: the list conversions in the loads accept a JSON list and raise TypeError on anything else; Python would also iterate the characters of a string or the keys of a dict.
- `IndexerSchedule` is a two-field record with `to_dict` only; it has no `load`, so `Indexer.load` on a payload with a schedule always raises, as `Indexers.LoadIndexer` states.
- `remove_input_by_name`, `SkillParameter` and `to_skill_output` are not part of `azuresearch/skills/skill.py` as given: the filter `SkillWiring.Skill.RemoveInputByName` and the `(name, target, return_multiple)` record `CognitiveSkills.SkillParameter` stand for them. The predefined skills' constructors are not modelled end to end, because the base constructor would index the `inputs=None` and `outputs=None` they pass.
- `MergeSkill.set_inputs` reads an undefined `language_code`, so it always ends in NameError after handling `text`; it is not modelled. `LanguageDetectionSkill.set_inputs` rebuilds the inputs through a `set`, whose order Python does not fix; it is not modelled. The table of predefined skill type names is not modelled.
- The fixture round trips of the tests (`index.json`, the skillset and data source fixtures) are not modelled: the fixtures are not part of this model. The tests check `load` then `to_dict` (tests/test_index.py:34-42, tests/test_skills_creation.py:178-185). The model proves that direction, up to key order, only for data sources (`DataSources.LoadThenToDictAnyOrder`). For fields, indexes, skillsets and indexers it proves the other direction, `to_dict` then `load`, for every value that satisfies the stated conditions (`Fields.FieldRoundTrip`, `Indexes.IndexRoundTrip`, `Skillsets.SkillsetRoundTrip`, `Indexers.IndexerRoundTrip`).
- `Indexes.LoadIndex`: the round trip `Indexes.IndexRoundTrip` leaves out four kinds of index. An index with analyzers is excluded because `load` passes the index name to each analyzer and keeps the sent type only in its params (`Analyzers.AnalyzerReload`), so the analyzers come back changed. Non-empty tokenizers, token filters or char filters are excluded because the model holds them as plain JSON values, which have no `to_dict` (`Indexes.ListDicts`). An index with no fields is excluded because its `fields` entry is stripped, so `load` reports the missing argument. Empty lists or strings are excluded because they are stripped and come back as None.
- `CognitiveSkills.TranslateFieldsMapping`: an entry of `fields_mapping` is modelled as its `mtf["name"]` and the `.name` of its `mtf["field"]`, so the errors of the OCRSkill and SentimentSkill constructor loops are not represented: KeyError for an entry without a `"name"` key (or a supported one without `"field"`), TypeError for an entry that cannot be subscripted, AttributeError for a supported entry whose field has no `.name`; in Python the first such error ends the constructor (azuresearch/skills/predefined/cognitive_skills.py:373-376, 512-518).
- `Documents`: `documents` may be any iterable in Python; the model takes a list. A check that fails raises a bare `Exception` with an empty message, modelled as such.
- `azuresearch/indexer.py` (a stale copy of the indexer), `azuresearch/skills/web_api_skill.py` (its constructor always raises on `outputss=`), `azuresearch/analyzers/predefined_analyzer.py` (constant tables), `__repr__` methods and the test helpers are not part of this model.

## Findings

| source | as written | input that shows it | evidently intended | confidence | as-written member | corrected member |
|---|---|---|---|---|---|---|
| azuresearch/skills/skill.py:127-130 | `for input in self.inputs: ... self.inputs.remove(input)` removes from the list it iterates over, so the input after each removed one is never looked at | `remove_source(source_name="text")` on two adjacent inputs named `text` leaves one of them | every input with the name is removed and the rest keep their order | high (not executed) | SkillWiring.AdjacentNamedInputSurvives | SkillWiring.Skill.RemoveInputByName |
| azuresearch/indexers/indexer.py:24-36 | the constructor stores its `field_mappings` argument, then overwrites it with two fixed mappings, so the argument never reaches `to_dict` | `Indexer(..., field_mappings=[FieldMapping("content1", "content1")])`: `to_dict()['fieldMappings'][0]` is the blob-path mapping, where tests/test_indexer.py:13-14 expects the one given | the mappings given are kept, the two defaults standing in only when none are given | medium (not executed) | Indexers.ConstructedMappingsSent | Indexers.NewIndexerKeepingMappings |
