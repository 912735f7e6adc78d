# stac-generator and asset-scanner core, modelled in Dafny

This project models the harvesting core of the CEDA STAC generator
(`stac_generator`) and of its predecessor, the asset scanner
(`asset_scanner`). Together they turn files, Solr documents and broker
messages into STAC items, assets and collections. The model covers:

- configuration merging: `dict_merge` of both packages, `dot2dict` and `nested_get`, and WGS84/GeoJSON coordinate reordering;
- the plugin configuration of the generator;
- the generator pipeline: input filters, extraction methods, mappings and outputs, including the bulk output cache;
- the asset scanner's handler registry and processor loading;
- recipe lookup by path, current and old, and the item-description loading of the asset scanner;
- the STAC and CEDA mappings, and date trimming and combining;
- the extraction methods and post-processors: defaults, regex, renaming, prefixes, removal, string joins, ids, path parts, geometries and bounding boxes;
- the RabbitMQ and Solr inputs and their cursor paging;
- the ESGF Solr extractor and the Elasticsearch collection aggregator.

The model uses one module per source component. Python values are the
`Values.Value` datatype (None, bool, int, float as `real`, str, list and
dict), and a body is `map<string, Value>`. Every Python exception becomes an
`Err` of `Values.Error`. Calls into code outside the core are fields of
`Values.Foreign` or function parameters: float and date parsing, regular
expressions, md5, `str()` of floats and containers, searches against Solr and
Elasticsearch, and broker deliveries. Python's dict iteration order matters
where keys can collide, so the model takes it as an explicit sequence of
keys. Where the code has a defect, the member takes a `Variant`: `AsWritten`
follows the code and `Corrected` the evident intent (see "## Findings").

Where the documentation and the code disagree, the model follows the code:

- `should_process` keeps an input when ANY filter accepts it, although its docstring says every filter must.
- The line geometry is written with type `"Line"`, not RFC 7946's `"LineString"`.
- The root link's href is the literal `"{self.conf.stac_root_url}/"`, because the string is not an f-string.
- The categories extraction method's docstring configures its list under `catagories`, but the code reads `categories`. The method writes its result under the key `catagories`, and the model uses that output key.
- The asset scanner's `STACModel.id` is a dict, so `get_collection_id` fails whenever a collection is described.
- Three modules import `isoformat_date` from stac_generator/core/utils.py, which does not define it: the ISO date post-processor (stac_generator/plugins/postprocessors/iso_date.py:15), the date-combinator extraction method (stac_generator/plugins/extraction_methods/date_combinator.py:12) and the date-combinator post-processor (stac_generator/plugins/postprocessors/date_combinator.py:15). The model uses the asset scanner's `isoformat_date` (asset_scanner/plugins/extraction_methods/utils.py:58-99) in its place, for Postprocessors.IsoDateKey, Extraction.DateCombinatorRun and Dates.CombineDates alike.

## Model

| member | source | states |
|---|---|---|
| Merge.KeyOutcomes | stac_generator/core/utils.py:157-197 | each key one merge step visits is the incoming dict's key (all keys with add_keys, only shared keys without), and its outcome is decided by that key's accumulator and incoming values alone |
| Merge.AppendNew | stac_generator/core/utils.py:191-195 | the accumulator's list is kept as a prefix, at most one element per incoming element is added, and each appended element is one the accumulator lacked, taken from the incoming list |
| Merge.Mismatched | stac_generator/core/utils.py:168-183 | the strict rule raises TypeError on a type mismatch; an empty incoming list fails at v[0]; a lenient success either keeps the accumulator's value (as written) or is a list holding both the scalar and every element of the list it joins |
| Merge.MergeValue | stac_generator/core/utils.py:163-197 | a later scalar of the same type replaces the earlier one; two lists merge into one that extends the accumulator's list with incoming elements only; two dicts merge recursively into a dict with the accumulator's keys plus the visited keys |
| Merge.MergeFold | stac_generator/core/utils.py:157-199 | folding no further dicts returns the accumulator, and a failed fold fails only on a type conflict naming at least one key |
| Merge.MergeDicts | asset_scanner/core/utils.py:141-169 | one merge step keeps every key of the accumulator and gains the visited keys; an unvisited key keeps its value, a key missing or falsy in the accumulator takes the incoming value, and a failure names only keys where both sides held values |
| Merge.DictMerge | stac_generator/core/utils.py:149-199 | fewer than two dicts fail the assertion; the first dict's keys survive every merge, and with add_keys=False the result has exactly the first dict's keys |
| Merge.FoldKeys | asset_scanner/core/utils.py:143-147 | along the left-to-right fold the key set only grows |
| MergeProperties.AppendNewSpec | stac_generator/core/utils.py:191-195 | the list branch keeps the existing list as a prefix, holds exactly the elements of both lists, and introduces no duplicate |
| MergeProperties.MergeDictsAt | stac_generator/core/utils.py:162-197 | a merge step succeeds only if each visited key does, and then holds that key's merged value; a failing key is reported with its error |
| MergeProperties.ListsAppendWithoutDuplicates | asset_scanner/core/utils.py:164-167 | merging two same-type lists appends the incoming elements not yet present, keeps the existing list as a prefix and adds no duplicate, in both variants |
| MergeProperties.StrictConflictNamesKey | asset_scanner/core/utils.py:155-157 | in the strict variant two truthy values of different Python types at one key always fail, naming that key and both types; there is no list folding |
| MergeProperties.LaterScalarWins | stac_generator/core/utils.py:196-197 | a truthy scalar met by a value of the same Python type is overwritten by the later argument, in both variants |
| MergeProperties.NestedDictsMerge | asset_scanner/core/utils.py:159-161 | two dicts at one key merge recursively with the same add_keys flag |
| MergeProperties.LenientFoldsScalar | stac_generator/core/utils.py:168-172 | with the fold corrected, a truthy scalar meeting a list whose first element has the scalar's type ends up in that list exactly once |
| MergeProperties.LenientAsWrittenKeepsScalar | stac_generator/core/utils.py:168-172 | as written, the same case keeps the scalar and drops the incoming list, because the list the scalar is appended to is never stored |
| MergeProperties.ScalarFoldCounterexample | stac_generator/core/utils.py:168-172 | merging {"a": "x"} with {"a": ["y"]} gives {"a": "x"} as written and {"a": ["y", "x"]} corrected |
| MergeProperties.LenientOtherMismatchFails | stac_generator/core/utils.py:168-183 | any other mismatch in the lenient variant fails: IndexError for an empty incoming list, otherwise a TypeError naming both types |
| MergeProperties.StrictRefinesLenientValue | stac_generator/core/utils.py:162-197 | wherever the strict variant succeeds on two values, the lenient one (as written or corrected) succeeds with the same value |
| MergeProperties.StrictRefinesLenientDicts | asset_scanner/core/utils.py:141-169 | the same holds for whole merge steps: leniency only rescues type mismatches |
| Dotted.InitKey | asset_scanner/core/utils.py:191-196 | the key dot2dict recurses on is every dot-separated part but the last, re-joined with dots |
| Dotted.Nest | asset_scanner/core/utils.py:174-199 | the reference nesting: an empty key path gives the value itself, and a non-empty one a dict with the single key of its first part |
| Dotted.Dot2Dict | asset_scanner/core/utils.py:174-199 | the empty key returns the value un-nested, and any other key gives a dict (Dot2DictNests states its exact nesting) |
| Dotted.DotPartsOfShortKey | asset_scanner/core/utils.py:188-199 | a key whose initial key is empty stands for the one-part path of its last part |
| Dotted.DotPartsOfLongKey | asset_scanner/core/utils.py:188-199 | otherwise the path is the initial key's path followed by the last part |
| Dotted.Dot2DictNests | asset_scanner/core/utils.py:174-199 | dot2dict nests the value under the key's dot-separated parts, outermost first, so the nesting depth is the number of parts |
| Dotted.Dot2DictEmptyKey | asset_scanner/core/utils.py:188-189 | the empty key returns the value itself, un-nested |
| Dotted.Dot2DictSingle | asset_scanner/core/utils.py:191-199 | a key without dots gives {k: v} |
| Dotted.Dot2DictTwoLevels | asset_scanner/core/utils.py:191-199 | "a.b" gives {"a": {"b": v}} for dot-free, non-empty a and b |
| Dotted.Dot2DictTestSingle | tests/test_utils.py:14-37 | the unit test's key without dots nests one level |
| Dotted.Dot2DictTestNested | tests/test_utils.py:14-37 | the unit test's key with one dot nests two levels |
| Dotted.NestedGetFrom | asset_scanner/core/utils.py:211-219 | keys before the first occurrence of the last key descend (a missing key into {}), that occurrence returns .get(last), and .get on a non-dict raises |
| Dotted.NestedGet | stac_generator/core/utils.py:202-219 | an empty key list raises IndexError; otherwise the walk starts at the input dict |
| Dotted.NestedGetInvertsDot2Dict | asset_scanner/core/utils.py:174-219 | following a dotted key's parts through the dict dot2dict built returns the value, provided the last part does not also occur earlier |
| Coordinates.FromWgs84 | stac_generator/core/utils.py:62-77 | positions 0 to 3 are minLon, minLat, maxLon, maxLat; a shorter list raises IndexError and extra entries are ignored |
| Coordinates.ToWgs84 | stac_generator/core/utils.py:79-86 | writes [minLon, minLat, maxLon, maxLat], the bbox order of section 5 of RFC 7946 |
| Coordinates.FromGeojson | stac_generator/core/utils.py:45-60 | the first corner gives minLon and maxLat, the second maxLon and minLat; a missing corner or ordinate raises IndexError |
| Coordinates.ToGeojson | stac_generator/core/utils.py:88-95 | writes [[minLon, maxLat], [maxLon, minLat]] |
| Coordinates.Wgs84RoundTrip | stac_generator/core/utils.py:62-86 | to_wgs84(from_wgs84(c)) == c for any four-element list, and reading back a written box gives the box |
| Coordinates.GeojsonRoundTrip | asset_scanner/core/utils.py:42-92 | the same two round trips for the GeoJSON envelope |
| Coordinates.Wgs84ToGeojson | stac_generator/core/utils.py:45-95 | from_wgs84 followed by to_geojson only rearranges the four numbers |
| Config.SetAttrs | stac_generator/core/processor.py:30-32 | every entry of the configuration becomes an attribute and replaces one of the same name, other attributes are kept, and a non-dict configuration raises on .items() |
| Config.DefaultAttr | stac_generator/core/extraction_method.py:32-33 | an attribute is set to the default only when it is absent; an existing one, whatever its value, is kept |
| Config.ExtractionMethodAttrs | stac_generator/core/extraction_method.py:20-33 | every default_conf key becomes an attribute, a key in both configurations takes the keyword value, default-only keys survive, and exists_key is "$" unless either configuration supplies it |
| Config.ProcessorAttrs | stac_generator/core/processor.py:20-28 | construction fails without a "conf" key; conf is applied first, keyword arguments override it, conf-only keys are kept and conf itself becomes an attribute |
| Config.MappingAttrs | stac_generator/core/mapping.py:22-31 | without default_conf the attributes are exactly the keyword arguments; with it, it is applied first, keyword arguments override and default-only keys survive |
| Config.OutputKeyDefault | asset_scanner/plugins/extraction_methods/mixins.py:20-25 | an absent or None output_key becomes "properties", an explicit "" or other value is kept, and every other keyword argument is forwarded unchanged |
| BulkOutput.Evict | stac_generator/core/bulk_output.py:33 | the cache's evictions before a store never grow the cache and leave a cache with room untouched |
| BulkOutput.Put | stac_generator/core/bulk_output.py:69 | storing under a key leaves the cache well formed with that key mapped to the record; an existing key is replaced in place, so there is at most one entry per id |
| BulkOutput.DataList | stac_generator/core/bulk_output.py:38-43 | data_list holds one record per cached entry, in cache order |
| BulkOutput.DataListIds | stac_generator/core/bulk_output.py:38-43 | the ids of the exported records are exactly the cached keys |
| BulkOutput.Init | stac_generator/core/bulk_output.py:21-33 | cache_max_size defaults to 100 and the cache capacity is one more than it; construction succeeds exactly when the size is a number (int, bool or float) and keeps that number, a float included, and otherwise raises TypeError |
| BulkOutput.ClearCache | stac_generator/core/bulk_output.py:74-79 | clear_cache exports one record per cached entry and leaves the cache empty |
| BulkOutput.RunRecord | stac_generator/core/bulk_output.py:53-72 | a record without an id raises KeyError; after run the cache is either just flushed (empty) or holds fewer than cache_max_size entries, and a flush exports the cache including the new record |
| BulkOutput.RunRecords | stac_generator/core/bulk_output.py:62-72 | running every record in turn succeeds exactly when every record has a hashable id and the threshold is not negative (or there are no records), and keeps the output's invariant and threshold |
| BulkOutput.RunKeepsEveryId | stac_generator/core/bulk_output.py:62-79 | a record with a hashable id is accepted, and one run loses nothing: the ids cached before and the new id are exported by it or still cached |
| BulkOutput.ClearCacheExportsIds | stac_generator/core/bulk_output.py:74-79 | clear_cache exports a record under every cached id and nothing else |
| BulkOutput.RunAllKeepsEveryId | stac_generator/core/bulk_output.py:53-79 | every id that was cached or passed to run ends up in an exported batch or still cached; since capacity is max + 1 and the flush triggers at max, no entry is evicted unexported |
| BulkOutput.RunThenClearExportsEveryId | stac_generator/core/bulk_output.py:62-79 | after all records are run and the cache is cleared, every id passed to run has been exported |
| Decorators.AcceptsPreprocessors | asset_scanner/core/decorators.py:33-47 | without pre-processors the function sees the original arguments; otherwise it sees self re-prepended to the arguments the pre-processors produced |
| Decorators.PreprocessAppend | asset_scanner/core/decorators.py:42-44 | pre-processors run in list order, each mapping (args, kwargs) to the next (args, kwargs) |
| Decorators.AcceptsPostprocessors | asset_scanner/core/decorators.py:65-79 | without post-processors the response is returned unchanged; otherwise each post-processor receives the arguments minus self and the response so far as source_dict, and a clashing source_dict raises TypeError |
| Decorators.PostprocessAppend | asset_scanner/core/decorators.py:75-78 | post-processors run in list order, each on the previous response |
| Generator.AnyFilter | stac_generator/core/input.py:38-39 | the filter result is true iff some filter accepts |
| Generator.ShouldProcess | stac_generator/plugins/input_plugins/base.py:25-39 | no filters means true; with filters the result is true iff at least one filter accepts (any, although the docstring says all must pass), so all filters rejecting gives false |
| Generator.ShouldProcessMedia | asset_scanner/plugins/input_plugins/base.py:24-39 | no filters means true for any path and media; otherwise the result is any over the filters, each receiving the same path and media |
| Generator.InitFilters | stac_generator/core/input.py:22-25 | filters stay None unless a truthy filters entry is configured, and are then the loaded plugins |
| Generator.LoadExtractionMethod | stac_generator/core/generator.py:91-112 | a missing method key raises KeyError; the entry's inputs gain default_conf and nothing else in the entry changes |
| Generator.DefaultConfPrecedence | stac_generator/core/generator.py:102-110 | the default_conf handed to the method is kwargs overridden by the generator configuration for that method: the generator configuration wins on clashes and kwargs-only keys survive |
| Generator.RunExtractionMethod | stac_generator/core/generator.py:114-123 | running one method succeeds iff it loads and its run succeeds; it then returns exactly the loaded method's run of the body and the updated configuration entry, and otherwise the loading error, or failing that the run's error |
| Generator.Thread | stac_generator/core/generator.py:141-143 | threading a body through the entries returns one updated entry per entry |
| Generator.ThreadAppend | stac_generator/core/generator.py:141-143 | threading through two lists in turn equals threading through their concatenation |
| Generator.RunExtractionMethods | stac_generator/core/generator.py:137-145 | without an entry for this generator type, or with an empty list, the body comes back unchanged; otherwise every method entry is run |
| Generator.RunExtractionMethodsAppend | stac_generator/core/generator.py:137-145 | the methods run in configured order, each receiving the body the previous one returned |
| Generator.TwoMethodsInOrder | stac_generator/core/generator.py:141-143 | two methods run as the second applied to the first's result, so the later writer wins |
| Generator.Map | stac_generator/core/generator.py:147-158 | no mappings returns the body unchanged; as written any configured mapping raises TypeError, because `run(body, recipe, **kwargs)` is handed three positional arguments; corrected, mapping always succeeds |
| Generator.OneMappingFails | stac_generator/core/generator.py:155-156 | a single mapping already raises TypeError as written, and corrected maps the body |
| Generator.MapAppend | stac_generator/core/generator.py:155-156 | corrected, mappings split in two apply the first part, then the second on its output |
| Generator.MapLast | stac_generator/core/generator.py:155-158 | corrected, the last mapping is applied last, to the output of all the others |
| Generator.SinkRun | stac_generator/core/generator.py:166-167 | a plain output records the data it is given; a bulk output runs its cache state machine |
| Generator.RunSinks | stac_generator/core/generator.py:166-167 | every output's run(data) on the same data, in order: it succeeds iff each output does, giving each output's new state |
| Generator.Output | stac_generator/core/generator.py:160-167 | as written, keyword arguments with any output configured raise TypeError, since every output's run takes data only; keyword-free, or corrected, every output runs on the same data and the call succeeds iff each output does |
| Generator.Finish | stac_generator/core/generator.py:173-175 | a plain output is untouched; a bulk output exports one more batch and is left with an empty cache |
| Generator.Finished | stac_generator/core/generator.py:169-175 | finished treats every output independently, flushing only the bulk ones |
| Generator.Process | stac_generator/core/generator.py:185-195 | the body handed to _process holds the key "uri" and nothing else; the keyword arguments are the caller's plus TYPE, every other key unchanged, and TYPE is the generator's type whatever the caller passed |
| Generator.ProcessSameCall | stac_generator/core/generator.py:185-195 | two calls hand on the same arguments iff they have the same uri and generator type and keyword arguments that differ at most in TYPE, so a caller's TYPE never reaches _process |
| Generator.OutputAll | stac_generator/core/generator.py:160-167 | feeding every record to every output keeps one output per output |
| Generator.Start | stac_generator/core/input.py:43-48 | start delivers the input's records and then calls finished exactly once |
| Generator.KeywordsIgnoredWhenCorrected | stac_generator/core/generator.py:160-167 | corrected, outputting records with keyword arguments is outputting them keyword-free |
| Generator.KeywordOutputFails | stac_generator/plugins/generators/item.py:99 | as written, a run whose records reach output with keyword arguments, as the item generator's always do, fails at the first output; corrected it equals the keyword-free run |
| Generator.SinkRunAll | stac_generator/core/generator.py:166-167 | one output fed every record stays of its kind |
| Generator.OutputAllPointwise | stac_generator/core/generator.py:160-167 | feeding records to all outputs leaves each output as if it had been fed all records alone |
| Generator.PlainRunAll | stac_generator/core/generator.py:166-167 | a plain output exports exactly the records, in order |
| Generator.BulkRunAll | stac_generator/core/bulk_output.py:62-72 | a bulk output fed all records behaves as the bulk state machine's run |
| Generator.StartExportsEveryRecord | stac_generator/core/input.py:43-48 | after a successful start (as written, only keyword-free calls such as stac_generator/plugins/generators/collection_generator.py:60 succeed), a plain output has exported exactly the records in order and a bulk output has an empty cache and has exported a record under every id it was given |
| Registry.Register | asset_scanner/core/handler_picker.py:29-32 | the registry holds exactly one entry per entry-point name |
| Registry.NewPicker | asset_scanner/core/handler_picker.py:18-32 | a missing or empty entry-point key raises ValueError; otherwise the handlers are the registered entry points |
| Registry.RegisterLastWins | asset_scanner/core/handler_picker.py:29-32 | the handler under a name is the last entry point with that name: a later one replaces an earlier one |
| Registry.GetProcessor | asset_scanner/core/handler_picker.py:36-55 | a registered name yields the factory applied to exactly the given kwargs; an unregistered name constructs nothing and, as written, raises NameError because LOGGER is undefined, while the corrected variant returns None |
| Registry.LoadOne | asset_scanner/core/extractor.py:80-110 | loading one configured extra processor needs a dict with a name and mapping inputs; inputs that rebind self, name or group (parameters of _get_processor) raise TypeError; what loads is a registered handler |
| Registry.LoadAll | asset_scanner/core/generator.py:115-124 | the loop succeeds iff every entry loads, keeps at most one processor per entry, and every processor it keeps was loaded from some entry |
| Registry.LoadAllKeepsLoaded | asset_scanner/core/generator.py:115-124 | when every entry loads, the loop keeps exactly the loaded processors, in entry order, dropping the entries that gave None |
| Registry.LoadExtraProcessors | asset_scanner/core/extractor.py:91-112 | no entry under the key gives no processors; a listed value that cannot be iterated as configurations raises TypeError; otherwise it is the loop over the entries, and when all of them load, exactly the loaded processors in order, with None loads dropped |
| Registry.LoadAllAsWritten | asset_scanner/core/generator.py:103-124 | as written, loading succeeds only when every name is registered, then gives one processor per entry in order, and agrees with the corrected loader |
| Registry.UnregisteredNameSkipped | asset_scanner/core/handler_picker.py:46-50 | one unregistered name makes the as-written loader raise NameError and the corrected loader skip it |
| AssetCore.GetCategory | asset_scanner/core/extractor.py:62-78 | _get_category returns the label iff the regex is found in the string, otherwise None |
| AssetCore.Matched | asset_scanner/core/generator.py:209-214 | a label is collected iff it is non-empty and some category with that label matches |
| AssetCore.GetCategories | asset_scanner/core/extractor.py:151-170 | the distinct matched labels, or ["data"] when none match, so the result is never empty |
| AssetCore.CategoryMembership | asset_scanner/core/generator.py:198-216 | a label is reported iff it matches, or it is "data" and nothing matches |
| AssetCore.GetCollectionId | asset_scanner/core/generator.py:87-90 | the collection id is the hash of the collection's id, or of "undefined" when there is no collection; only a string id hashes |
| AssetCore.DescribedCollectionId | asset_scanner/core/generator.py:87-90 | on a validated description the id succeeds iff there is no collection, and is then the hash of "undefined"; STACModel.id is a dict, which has no encode |
| AssetCore.NestUnderOutputKey | asset_scanner/core/generator.py:155-160 | truthy metadata of a processor with a truthy output_key is dot2dict(output_key, metadata); otherwise the metadata passes through unchanged |
| AssetCore.NestUnderPlainKey | asset_scanner/core/extractor.py:144-149 | a dot-free key such as "properties" nests truthy metadata one level down, and an empty key leaves it un-nested |
| AssetCore.LoadProcessor | asset_scanner/core/extractor.py:80-124 | a processor entry without a name raises KeyError; inputs that rebind self, name, group or output_key raise TypeError; a loaded processor is a registered facet processor |
| AssetCore.RunProcessor | asset_scanner/core/extractor.py:126-149 | running a processor succeeds only if it and its pre- and post-processors load, and the result is its run output nested under its output_key; errors come in loading order, processor, then pre-processors, then post-processors, and a processor that loaded as None fails on run only after both lists loaded |
| AssetCore.RouteFrom | asset_scanner/core/extractor.py:191-193 | the chosen backends from a position on are exactly those whose namespace is empty or equal to the requested one, in backend order |
| AssetCore.Route | asset_scanner/core/generator.py:236-238 | the chosen backends are exactly those whose namespace is empty or matches, in increasing order |
| AssetCore.Output | asset_scanner/core/generator.py:230-238 | a backend receives the data and kwargs, unchanged, iff its namespace is empty or equals the requested namespace |
| Describers.RootedPath | asset_scanner/core/collection_describer.py:132-133 | a lookup path not starting with "/" gets one prepended, a rooted path is unchanged, and an empty path fails at filepath[0] |
| Values.PyFloat | stac_generator/plugins/extraction_methods/geometry_point.py:43-44 | float() of None, a list or a dict is a TypeError; any other value converts as the float parser reads it, and an unreadable string is a ValueError |
| Values.Index | stac_generator/plugins/extraction_methods/geometry_to_bbox.py:49-54 | v[i] gives a list's element or a string's character, IndexError past the end, KeyError for a dict (its keys are strings), and TypeError for anything else |
| Values.Items | stac_generator/plugins/extraction_methods/geometry_to_bbox.py:58 | a for loop visits a list's elements, a string's characters or a dict's keys, and raises TypeError on anything else |
| Values.KeyValues | stac_generator/core/baker.py:124 | a for loop over a dict visits each of its keys exactly once, as str values, and nothing else |
| Describers.PathEntries | asset_scanner/core/collection_describer.py:104 | a for loop over the configured entry visits a list's elements, a string's characters, or each key of a mapping exactly once; anything else raises TypeError |
| Describers.EntryPaths | asset_scanner/core/collection_describer.py:104-108 | the paths registered for the value under the key: one stripped path per list element, in order, and one per key of a mapping, none ending in a slash |
| Describers.StripEntries | asset_scanner/core/collection_describer.py:104-106 | every entry must be a string, or rstrip raises AttributeError; each path loses its trailing slashes and keeps its position |
| Describers.RootedPathIdempotent | asset_scanner/core/collection_describer.py:132-133 | normalising twice is normalising once, and a path is unchanged iff it was rooted |
| Describers.RegisteredPaths | asset_scanner/core/collection_describer.py:104-108 | the registered dataset paths are the file's entries under the key with trailing slashes removed, none for a missing key, every key of a mapping there, and a non-mapping file raises |
| Describers.StripIdempotent | asset_scanner/core/item_describer.py:98-100 | stripping trailing slashes only removes slashes from the end, and stripping again changes nothing |
| Describers.MergeFiles | asset_scanner/core/collection_describer.py:149-154 | merging files into an accumulator succeeds only on mappings and never loses an accumulator key |
| Describers.LoadConfig | asset_scanner/core/collection_describer.py:143-154 | no files give {}, and every key of every merged file is in the result |
| Describers.MergeFilesKeys | asset_scanner/core/item_describer.py:135-140 | every key of every merged file is in the merged description |
| Describers.MergeIntoEmpty | asset_scanner/core/collection_describer.py:149-152 | merging a file into {} gives the file back |
| Describers.MergeFilesAppend | asset_scanner/core/collection_describer.py:110-122 | top-down: the more specific file is merged last, on top of what the files above it gave |
| Describers.LoadConfigSingle | asset_scanner/core/collection_describer.py:143-154 | a single description file is the description |
| Describers.LaterFileOverrides | asset_scanner/core/collection_describer.py:115-122 | a truthy scalar from the files above is overridden by the value of the same type in the next, more specific file |
| Describers.DictList | asset_scanner/core/collection_describer.py:43-44 | a list[dict] field defaults to [] and otherwise must be a list of dicts of the same length |
| Describers.OptionalStacModel | asset_scanner/core/collection_describer.py:39-54 | an optional STACModel field is None when absent or None, and otherwise built from a dict |
| Describers.StrField | asset_scanner/core/collection_describer.py:32-36 | a str field accepts a string as is and a number or bool as its text, and rejects anything else |
| Describers.ParseCategory | asset_scanner/core/collection_describer.py:32-36 | a category needs a mapping with a label and a regex |
| Describers.ParseCategories | asset_scanner/core/collection_describer.py:56 | the categories list is validated entry by entry, in order |
| Describers.ValidateCollection | asset_scanner/core/collection_describer.py:47-56 | paths is required and must be a list, the three STAC models default to None and categories to [] |
| Describers.GetCollectionDescription | asset_scanner/core/collection_describer.py:110-140 | an empty path fails; otherwise the result is the validated top-down merge of the found description files |
| Describers.GetItemDescription | asset_scanner/core/item_describer.py:104-126 | the item description is the top-down merge of the found files, with no leading-slash normalisation |
| Describers.EmptyItemDescription | asset_scanner/core/item_describer.py:38-68 | an empty description answers defaults {}, overrides and mappings None, and the three facet lists and categories [] |
| Paths.ParsePath | stac_generator/core/baker.py:136 | a parsed path is normal (no empty or "." components) and is absolute iff the text starts with "/" |
| Paths.Parents | stac_generator/core/baker.py:163-166 | p.parents lists the proper ancestors, nearest first, one per component |
| Paths.Parts | stac_generator/plugins/extraction_methods/path_parts.py:75 | an absolute path's parts start with the root "/" |
| Describers.ItemDescription.Section | asset_scanner/core/item_describer.py:38-48 | a section is the description's entry for the key, or the default when the key is absent |
| Describers.ItemDescription.Defaults | asset_scanner/core/item_describer.py:38-40 | defaults is the description's entry, {} when absent |
| Describers.ItemDescription.Overrides | asset_scanner/core/item_describer.py:42-44 | overrides is the description's entry, None when absent |
| Describers.ItemDescription.Mappings | asset_scanner/core/item_describer.py:46-48 | mappings is the description's entry, None when absent |
| Describers.ItemDescription.FacetConf | asset_scanner/core/item_describer.py:62-64 | the facets section, {} when absent |
| Describers.ItemDescription.Facet | asset_scanner/core/item_describer.py:50-60 | allowed_facets, extraction_methods and aggregation_facets are read from the facets section, [] when absent; a non-mapping section has no get |
| Describers.ItemDescription.Categories | asset_scanner/core/item_describer.py:66-68 | categories is the description's entry, [] when absent |
| Baker.RecipePaths | stac_generator/core/baker.py:45 | a recipe's paths default to [], a list of strings gives one parsed path per string, and null raises TypeError when the key is serialised |
| Baker.RecipeMethods | stac_generator/core/baker.py:30-47 | an id or extraction_methods field defaults to [], null stays None, and a list validates iff every entry is a mapping with a string method and dict inputs (None allowed in baker.py); each entry keeps only method and inputs, inputs defaulting to {} |
| Baker.Validate | stac_generator/core/baker.py:40-53 | Recipe(**data) succeeds iff type is a string and paths, id and extraction_methods all validate; the recipe keeps the validated fields, and its links are the keys of the member_of recipes; a TypeError can only come from a null paths |
| Baker.Register | stac_generator/core/baker.py:132-136 | registering stores the recipe under its key and its location, every path of the recipe now maps to its key (a later recipe claiming a path overwrites the earlier mapping), and other paths keep theirs |
| Baker.LoadData | stac_generator/core/baker.py:110-138 | a location loaded before gives its key back without reloading; otherwise the store only grows, the location is registered, and linked recipes are loaded before the linking one so the store stays closed under links |
| Baker.RegisterGrows | stac_generator/core/baker.py:132-136 | registering a new location keeps a grown store growing, and keeps it closed when the recipe's links are loaded |
| Baker.LoadLinks | stac_generator/core/baker.py:123-128 | the member_of loop gives one link key per entry, in order, each a loaded recipe |
| Baker.MemberOfLoaded | stac_generator/core/baker.py:123-128 | a recipe that loads has loaded every recipe its member_of mapping names by key, as Python's iteration over the mapping's keys does |
| Baker.LoadAll | stac_generator/core/baker.py:104-105 | every scanned file is loaded into one growing store |
| Baker.NewRecipes | stac_generator/core/baker.py:95-108 | Recipes(root_path) registers every scanned file and every link of a stored recipe is stored |
| Baker.LoadRecipe | stac_generator/core/baker.py:140-151 | load_recipe fails with KeyError for an unknown key; otherwise member_of holds the recipes of the links, in link order, and never fails in a closed store |
| Baker.Resolve | stac_generator/core/baker.py:149 | resolving links succeeds iff every link is a stored key, and then gives one recipe per link in order |
| Baker.FirstRegistered | stac_generator/core/baker.py:163-166 | the chosen candidate is registered and every earlier candidate is not; None iff no candidate is registered |
| Baker.Candidates | stac_generator/core/baker.py:163 | as written only the proper ancestors, nearest first, can match; corrected, the path itself is tried first |
| Baker.GetRecipe | stac_generator/core/baker.py:153-168 | a recipe key given directly is loaded; otherwise the nearest registered candidate decides; no match raises ValueError |
| Baker.NearestWins | stac_generator/core/baker.py:163-166 | the chosen candidate is the nearest registered one, so the most specific recipe wins |
| Baker.RegisteredPathItselfIgnored | stac_generator/core/baker.py:163 | a path registered exactly, with no registered ancestor, finds no recipe as written and its own recipe when corrected |
| Baker.GetAfterLoading | stac_generator/core/baker.py:95-168 | after Recipes(root_path), get fails only when nothing matches |
| Baker.LoadOldRecipe | stac_generator/core/baker_old.py:74-88 | the location is the file; without first, member_of is empty; with it, each linked recipe has an empty member_of, so links resolve one level deep only |
| Baker.LoadOldLinks | stac_generator/core/baker_old.py:80-86 | every linked recipe of a first-level recipe has an empty member_of |
| Baker.LoadOldEach | stac_generator/core/baker_old.py:82-84 | one recipe per member_of entry, each located at that entry and without links |
| Baker.OldLoadAll | stac_generator/core/baker_old.py:90-107 | loading only adds recipes and paths, a later file claiming a path takes it over, and every path maps to a stored recipe file |
| Baker.OldRegister | stac_generator/core/baker_old.py:104-107 | the recipe is stored under its file, the registered paths gain exactly the recipe's paths, and each path now points to that file or keeps its earlier file |
| Baker.OldGet | stac_generator/core/baker_old.py:109-125 | corrected, a recipe file given directly is returned; otherwise the first proper ancestor in paths_to_location wins, and no match raises ValueError |
| Baker.OldRecipeFileIgnored | stac_generator/core/baker_old.py:117-118 | a recipe file asked for by its own path is not found as written and returned when corrected |
| Mappings.DatetimeField | stac_generator/plugins/mappings/stac.py:54-56 | a date field is the parsed value printed as %Y-%m-%dT%H:%M:%SZ, and an unparseable one fails |
| Mappings.DateProperties | stac_generator/plugins/mappings/stac.py:66-78 | properties.datetime is always present (None unless the body has one), and start_datetime and end_datetime appear only when present |
| Mappings.FirstOf | stac_generator/plugins/mappings/stac.py:92-93 | the collection is the first element of collection_id (the first character of a string) |
| Mappings.Rest | stac_generator/plugins/mappings/stac.py:95 | the leftover body is exactly the unrouted keys with their values |
| Mappings.Lookup | stac_generator/plugins/mappings/stac.py:80-90 | an optional top-level entry is present iff the body has the key, with its value |
| Mappings.Item | stac_generator/plugins/mappings/stac.py:58-120 | an item needs id and collection_id; stac_extensions is the body's list (default []) followed by the configured one; geometry defaults to None and assets to {}; bbox and member_of_recipes move up only when present; the links are built from the collection and id |
| Mappings.ItemPropertiesPartition | stac_generator/plugins/mappings/stac.py:58-95 | every body key not routed elsewhere is a property with its value unchanged, and routed keys are not properties |
| Mappings.Collection | stac_generator/plugins/mappings/stac.py:122-190 | a collection needs id; interval and bbox default to None, license to "" and providers to []; the leftover keys become summaries |
| Mappings.CollectionSummariesPartition | stac_generator/plugins/mappings/stac.py:142-160 | every body key of a collection is either taken by the collection or is a summary with its value, never both |
| Mappings.StacRun | stac_generator/plugins/mappings/stac.py:192-204 | "item" builds an item, "collection" a collection, and any other generator type returns the body unchanged |
| Mappings.ProcessedCallFails | stac_generator/plugins/mappings/stac.py:198 | as written, keyword arguments that set TYPE but not GENERATOR_TYPE, as process hands them on, make the mapping fail for every generator type (Findings row 10) |
| Mappings.StacRunOnType | stac_generator/plugins/mappings/stac.py:192-204 | the dispatch read from TYPE: a missing TYPE raises KeyError, and where TYPE and GENERATOR_TYPE agree it maps exactly as the code as written does |
| Mappings.ProcessedCallMapped | stac_generator/core/generator.py:191 | corrected, a call prepared by process for an "item" generator reaches the item mapping and one for a "collection" generator the collection mapping (Findings row 10) |
| Mappings.CedaRun | stac_generator/plugins/mappings/ceda.py:35-71 | {TYPE}_id and member_of_recipes are required; stac.status is "new"; the extent keys move into extent, which exists iff one was present; properties is the body left after the pops |
| Mappings.CedaKeysPartition | stac_generator/plugins/mappings/ceda.py:41-69 | every body key lands in exactly one of the id, stac, extent and properties |
| Dates.Slot | stac_generator/plugins/extraction_methods/date_combinator.py:77 | safe_substitute fills a placeholder with the body's value printed with str, and leaves the placeholder itself when the body has no such key |
| Dates.Trim | stac_generator/plugins/extraction_methods/date_combinator.py:80-85 | without a "$" the date is kept whole; with one it is cut to a strict prefix |
| Dates.TrimAt | stac_generator/plugins/extraction_methods/date_combinator.py:80-82 | the cut falls just before the separator that precedes the first unfilled placeholder |
| Dates.TrimYearMonthDay | stac_generator/plugins/extraction_methods/date_combinator.py:77-85 | year, month and day with no hour give "Y-M-D" from DATE_TEMPLATE |
| Dates.TrimYearMonth | stac_generator/core/utils.py:31 | year and month with no day give "Y-M" from DATE_TEMPLATE |
| Dates.IsoformatDate | asset_scanner/plugins/extraction_methods/utils.py:58-99 | with a format, strptime is tried first and dateutil only after it fails (reporting a format error); without one only dateutil is tried, and no format error is ever reported |
| Dates.StoredDate | stac_generator/plugins/extraction_methods/date_combinator.py:88-99 | the stored value is the parsed date, or the raw trimmed string when parsing fails |
| Dates.CombineDates | stac_generator/plugins/extraction_methods/postprocessors.py:503-549 | an empty body, one without a truthy year, or one missing year, month or day with no format comes back unchanged; otherwise the stored date goes under the key |
| Dates.DestructiveCombineClears | stac_generator/plugins/extraction_methods/date_combinator.py:101-104 | a destructive combinator removes year, month, day, hour, minute and second and keeps every other key |
| Extraction.ResolveDefault | stac_generator/plugins/extraction_methods/default.py:56-60 | a string default starting with exists_key is replaced by body[rest] (missing raises KeyError), an empty string fails at default_value[0], and anything else is copied verbatim |
| Extraction.ResolveDefaults | stac_generator/plugins/extraction_methods/default.py:55-60 | the resolved defaults have exactly the configured keys, each resolved against the incoming body |
| Extraction.DefaultRun | stac_generator/plugins/extraction_methods/default.py:54-64 | the result is body merged with the resolved defaults: defaults override, other body keys are unchanged |
| Extraction.RegexRun | stac_generator/plugins/extraction_methods/regex.py:55-65 | a missing uri raises KeyError; on a match the named groups override the body, and without one the body is unchanged |
| Extraction.Renamed | stac_generator/plugins/extraction_methods/facet_map.py:41-49 | the output keys are exactly the new names of the keys |
| Extraction.RenamedLastWins | stac_generator/plugins/extraction_methods/facet_map.py:42-48 | a key whose new name no later key takes keeps its value: the last writer wins |
| Extraction.RenamedValuesFromBody | stac_generator/plugins/extraction_methods/facet_map.py:40-49 | every output value is the value of an input key renamed to that name; values are moved, never changed |
| Extraction.RenamedCard | stac_generator/plugins/extraction_methods/facet_prefix.py:47-51 | a renaming that sends no two keys to one name keeps the number of keys |
| Extraction.RenamedKeys | stac_generator/plugins/extraction_methods/facet_map.py:40-49 | renaming every body key gives the image of the key set under the renaming |
| Extraction.RenamedUnique | stac_generator/plugins/extraction_methods/facet_map.py:42-48 | a key whose new name no other key shares keeps its value, whatever the order |
| Extraction.MapName | stac_generator/plugins/extraction_methods/facet_map.py:43-47 | a key with a truthy term_map entry is renamed to it; other keys, including those mapped to a falsy name, keep their name |
| Extraction.FacetMapRun | stac_generator/plugins/extraction_methods/facet_map.py:40-49 | the output key set is the image of the input keys under term_map, a key with a unique new name keeps its value, and an empty body gives {} |
| Extraction.FacetMapLastWins | stac_generator/plugins/extraction_methods/facet_map.py:42-48 | of two keys landing on the same name, the later one in body order wins |
| Extraction.PrefixName | stac_generator/plugins/extraction_methods/facet_prefix.py:48-51 | a key in terms becomes "{prefix}:{key}", other keys are unchanged |
| Extraction.FacetPrefixRun | stac_generator/plugins/extraction_methods/facet_prefix.py:43-53 | the output keys are the prefixed terms and the other keys, an unprefixed key no prefixed term collides with keeps its value, and an empty body gives {} |
| Extraction.PrefixInjective | stac_generator/plugins/extraction_methods/facet_prefix.py:49 | two prefixed names are equal only for equal keys |
| Extraction.FacetPrefixKeepsCount | stac_generator/plugins/extraction_methods/facet_prefix.py:47-51 | the number of keys is preserved unless a prefixed name collides with an existing key |
| Extraction.PopAll | stac_generator/plugins/extraction_methods/string_join.py:55-56 | popping the key list succeeds iff every key is present once, giving the values in order and the body without them; otherwise the keys before the first missing one stay removed |
| Extraction.StringJoinRun | stac_generator/plugins/extraction_methods/string_join.py:52-65 | destructive mode pops key_list and stores the joined str values under key; on a missing key nothing is written but earlier pops stay; non-destructive mode keeps the originals and a missing key prints as "None" |
| Extraction.RemoveRun | stac_generator/plugins/extraction_methods/remove.py:42-47 | every listed key is absent from the result, missing keys are ignored, and all other keys and values are unchanged |
| Extraction.RemoveIdempotent | stac_generator/plugins/extraction_methods/remove.py:42-47 | removing twice equals removing once |
| Extraction.DateCombinatorRun | stac_generator/plugins/extraction_methods/date_combinator.py:57-106 | with a uri the run is the date combination; without one, the paths that log body["uri"] raise KeyError |
| Extraction.ScalarPiece | stac_generator/plugins/extraction_methods/dot_seperated_str.py:63-64 | a string contributes itself; an int passes the isinstance test but the join rejects it as written, and corrected it is printed with str; other values contribute nothing |
| Extraction.DotPiece | stac_generator/plugins/extraction_methods/dot_seperated_str.py:63-70 | a one-element list contributes its element, a longer list multi_{facet}, an empty list nothing |
| Extraction.HashPiece | stac_generator/plugins/id_extraction_methods/hash.py:83-87 | any list contributes multi_{facet}; scalars as for dot-separated ids |
| Extraction.Pieces | stac_generator/plugins/extraction_methods/dot_seperated_str.py:58-70 | absent terms contribute nothing and present ones contribute in term order; all-string terms contribute their values |
| Extraction.PiecesOne | stac_generator/plugins/id_extraction_methods/hash.py:79-87 | one present term contributes its piece, if any |
| Extraction.DottedIsJoin | stac_generator/plugins/extraction_methods/dot_seperated_str.py:64-72 | the accumulated string with its leading "." removed is the pieces joined with "." |
| Extraction.DotSeparatedRun | stac_generator/plugins/extraction_methods/dot_seperated_str.py:53-74 | without terms the method returns None; otherwise output_key holds the contributions of the present terms joined with dots, and nothing else changes |
| Extraction.HashIdRun | stac_generator/plugins/id_extraction_methods/hash.py:70-97 | with all terms present the id hashes their contributions joined with dots; otherwise hash("{collection_id}.{uri}") when collection_id is a term, else hash(uri) for a string uri and AttributeError for any other; without terms the elif fails; empty terms hash "" whatever the properties are, and any other terms on non-dict properties fail |
| Extraction.HashIdOnlyTerms | stac_generator/plugins/id_extraction_methods/hash.py:74-91 | when every term is present, the id depends only on the terms' values: two records whose properties agree on the terms get the same id |
| Extraction.IntTermFails | stac_generator/plugins/id_extraction_methods/hash.py:82-83 | an integer term makes the id fail as written and is printed once corrected |
| Extraction.DirKeyUnderscore | stac_generator/plugins/extraction_methods/path_parts.py:83 | every _dir key starts with an underscore, so none clashes with filename |
| Extraction.Dirs | stac_generator/plugins/extraction_methods/path_parts.py:81-84 | the remaining parts become _dir1 to _dirN in order |
| Extraction.DirsKeys | stac_generator/plugins/extraction_methods/path_parts.py:81-84 | every key is the _dir key of some part |
| Extraction.DirsCard | stac_generator/plugins/extraction_methods/path_parts.py:81-84 | there is exactly one _dir key per part |
| Extraction.SkipParts | stac_generator/plugins/extraction_methods/path_parts.py:77 | list(path.parts)[skip:] follows Python's slice bounds, negative skip included |
| Extraction.PathPartsRun | stac_generator/plugins/extraction_methods/path_parts.py:74-86 | after skipping, the last part is filename and the others _dir1 to _dirN, the output has exactly as many keys as remaining parts, and no part left fails on pop |
| Extraction.CategoriesRun | stac_generator/plugins/extraction_methods/categories.py:90-99 | the output key is "catagories" and lists each matching label once, or ["data"] when none matches |
| Geometry.Each | stac_generator/plugins/extraction_methods/geometry_line.py:44-56 | Converting each element succeeds exactly when every element converts; the results keep the order, and a failure is the error of some element. |
| Geometry.FloatAt | stac_generator/plugins/extraction_methods/geometry_point.py:43-44 | A missing key raises KeyError; otherwise the value is Python's float() of the stored value, a TypeError for None, a list or a dict. |
| Geometry.Position | stac_generator/plugins/extraction_methods/geometry_point.py:42-45 | A position is produced only when both named keys exist and convert to float. An empty key list is an IndexError, and the first key's failure is reported first. |
| Geometry.CatchKeyError | stac_generator/plugins/extraction_methods/geometry_point.py:52-55 | A KeyError leaves the body as it was; every other outcome passes through unchanged. |
| Geometry.PointRun | stac_generator/plugins/extraction_methods/geometry_point.py:40-55 | A readable position is stored as a "Point" under geometry. A missing key leaves the body unchanged. The run fails exactly when the position fails with something other than KeyError. |
| Geometry.Positions | stac_generator/plugins/extraction_methods/geometry_line.py:48-56 | One position per key pair, in order; it succeeds exactly when every pair gives a position. |
| Geometry.LineRun | stac_generator/plugins/extraction_methods/geometry_line.py:44-66 | The positions of all key pairs are stored as a "Line" under geometry; a missing key leaves the body unchanged; no other key changes. |
| Geometry.Close | stac_generator/plugins/extraction_methods/geometry_polygon.py:63-65 | The ring keeps its positions as a prefix and starts and ends at its first position. It grows by one exactly when the last position differed from the first. |
| Geometry.CloseIdempotent | stac_generator/plugins/extraction_methods/geometry_polygon.py:63-65 | Closing an already closed ring changes nothing. |
| Geometry.PolygonRun | stac_generator/plugins/extraction_methods/geometry_polygon.py:47-75 | A missing coordinates_term leaves the body unchanged. A non-empty list, read or built from coordinate_keys, is stored closed as a "Polygon"; a list read from coordinates_term is closed in place, so that key holds the closed ring too. Having no source is an IndexError. Any change is a geometry dict. |
| Geometry.PolygonClosed | stac_generator/plugins/extraction_methods/geometry_polygon.py:63-70 | The stored polygon's ring begins and ends at the same position. |
| Geometry.LookupN | stac_generator/plugins/extraction_methods/stac_bbox.py:50-53 | It succeeds exactly when the first n key names exist and are all in the body, giving their values in order. Too few names with all present is an IndexError. |
| Geometry.FloatOrNone | stac_generator/plugins/extraction_methods/stac_bbox.py:56-59 | None stays None and any other value goes through float(), so a list or a dict is a TypeError. |
| Geometry.StacBboxRun | stac_generator/plugins/extraction_methods/stac_bbox.py:48-65 | Four present, convertible values are stored as [west, south, east, north] under output_term. A missing key leaves the body unchanged, and fewer than four key names is an IndexError. |
| Geometry.RingOf | stac_generator/plugins/extraction_methods/geometry_to_bbox.py:49 | A missing input_term or coordinates raises KeyError and a non-dict geometry TypeError; otherwise the result is coordinates[0] as Python subscripts it: a list's first element, a string's first character, KeyError(0) for a dict. |
| Geometry.PairOf | stac_generator/plugins/extraction_methods/geometry_to_bbox.py:50-55 | A position gives its first two coordinates exactly when it is a list or string of at least two, a string giving its first two characters; a dict raises KeyError(0), a shorter list or string IndexError. |
| Geometry.NumericPairs | stac_generator/plugins/extraction_methods/geometry_to_bbox.py:57-70 | It succeeds exactly when every position of the ring is a numeric pair, giving those pairs in order. |
| Geometry.Extent | stac_generator/plugins/extraction_methods/geometry_to_bbox.py:50-70 | Every position lies inside the box, and each of the four bounds is attained by some position. |
| Geometry.GeometryToBboxRun | stac_generator/plugins/extraction_methods/geometry_to_bbox.py:47-74 | Errors reading the first position pass through. For other types than "polygon" or "line" the output is the first position repeated, whatever its values; for those two it succeeds iff every position visited is a numeric pair, and the output is the extent of the ring. |
| Postprocessors.IsoDateKey | stac_generator/plugins/postprocessors/iso_date.py:70-91 | A falsy or missing date is removed. A truthy non-string raises. A truthy string is replaced by the parsed ISO date, or removed when no format parses it. |
| Postprocessors.IsoDateRun | stac_generator/plugins/postprocessors/iso_date.py:55-93 | An empty body is returned as is. No key is added. Every date key left holds a non-empty string, and keys that are not date keys are unchanged. |
| Postprocessors.EnvelopeRun | stac_generator/plugins/postprocessors/bbox.py:46-75 | An empty body is returned as is. Four convertible keys give a two-corner envelope under bbox, and a missing key leaves the body unchanged. Only bbox can change. |
| Postprocessors.ListBboxRun | asset_scanner/plugins/extraction_methods/postprocessors.py:190-206 | An empty body is returned as is. When every key converts, the result is the list of floats in key_list order. A dict result is always the original body. |
| Postprocessors.PolygonProcessorRun | stac_generator/plugins/postprocessors/geometry_polygon.py:50-89 | An empty body is returned as is. With readable pairs the ring is the pair positions followed by the first again. No pairs on a non-empty body is an IndexError. |
| Postprocessors.PolygonProcessorClosed | stac_generator/plugins/postprocessors/geometry_polygon.py:72-77 | The stored ring ends where it starts and has one position more than there are key pairs, even when the input ring was already closed. |
| Postprocessors.NonEmpty | stac_generator/plugins/postprocessors/geometry_point.py:44-68 | An empty body is returned untouched; otherwise the processor's own outcome is returned. |
| Postprocessors.ExpectedFacetMap | stac_generator/plugins/postprocessors/facet_map.py:63-74 | The prediction has one entry per term, the mapped name when the term is mapped and the term itself otherwise. |
| Postprocessors.ExpectedFacetMapAgrees | stac_generator/plugins/postprocessors/facet_map.py:44-74 | With a non-empty term map, the predicted names are exactly the keys the run produces from a body with those terms as keys. |
| Postprocessors.ExpectedFacetPrefix | stac_generator/plugins/postprocessors/facet_prefix.py:64-78 | The prediction has one entry per term: unlisted terms are kept, and listed terms get the prefix with the variant's separator. |
| Postprocessors.ExpectedFacetPrefixAgrees | stac_generator/plugins/postprocessors/facet_prefix.py:47-78 | With the corrected ":" separator, the predicted names are exactly the keys the run produces. |
| Postprocessors.ExpectedFacetPrefixMisses | stac_generator/plugins/postprocessors/facet_prefix.py:75-78 | As written, the prediction for {"a": 1} with prefix p is p.a, while the run only writes p:a. |
| Postprocessors.ExpectedAppended | stac_generator/plugins/postprocessors/bbox.py:77-88 | As written, nothing is predicted, because append returns None; corrected, the prediction is the term list with the output name added. |
| Postprocessors.ExpectedBboxAgrees | stac_generator/plugins/postprocessors/bbox.py:46-88 | With all four keys convertible, the corrected prediction names exactly the keys the envelope run leaves, while the as-written one is None. |
| Postprocessors.RemoveFirst | stac_generator/plugins/postprocessors/date_combinator.py:130-132 | Removing succeeds exactly when the name is present, and the result is the list less one occurrence of it. |
| Postprocessors.RemoveEach | stac_generator/plugins/postprocessors/date_combinator.py:130-132 | Removing several names succeeds exactly when the list contains them all (with multiplicity), leaving the multiset difference. |
| Postprocessors.ExpectedDateTerms | stac_generator/plugins/postprocessors/date_combinator.py:117-134 | Non-destructively, the output key is appended. Destructively, it succeeds exactly when all six components are present, and then removes them. |
| Postprocessors.ExpectedDateTermsNeedComponents | stac_generator/plugins/postprocessors/date_combinator.py:128-132 | A destructive prediction from ["year", "month"] fails, because day is missing. |
| Paging.Collect | stac_generator/plugins/inputs/solr.py:106-128 | The result starts with the first page's items, and a first page without a next cursor is the whole result. |
| Paging.CollectLoop | stac_generator/plugins/inputs/solr.py:106-128 | The request loop completes exactly when the recursive collection does, and then yields the same items. |
| Inputs.LegacyMessage | stac_generator/plugins/inputs/rabbit_mq.py:170-178 | It succeeds exactly when the stripped text has at least six colon-separated fields. The date is the first three fields rejoined, and the message is every field from the seventh on, colons kept. |
| Inputs.DecodeMessage | stac_generator/plugins/inputs/rabbit_mq.py:140-183 | Text that is neither JSON nor a literal is read in the legacy format. A dict with uri is returned as is, and one without takes uri from filepath (KeyError when that is missing too). Every decoded message has a uri. |
| Inputs.LegacyRoundTrip | stac_generator/plugins/inputs/rabbit_mq.py:143-150 | Writing the fields H:M:S:path:action:size:message and decoding gives back each field; the message keeps its own colons. |
| Inputs.CopyTerms | stac_generator/plugins/inputs/rabbit_mq.py:285-286 | Copying succeeds exactly when every term's key is present (message[key]); with doc.get(key) it always succeeds. |
| Inputs.CopyTermsResult | stac_generator/plugins/inputs/solr.py:140-141 | The output gains exactly the terms' output keys. The last term writing a key sets its value, and every other key is unchanged. |
| Inputs.Callback | stac_generator/plugins/inputs/rabbit_mq.py:263-291 | An IndexError from decoding is acknowledged without processing, and other decode errors raise. A missing uri_term or extra term raises. Otherwise the uri and the copied terms are processed. |
| Inputs.SolrPath | stac_generator/plugins/inputs/solr.py:138 | The path has the id's length, and only dots can change. |
| Inputs.SolrPathAt | stac_generator/plugins/inputs/solr.py:136-138 | A position becomes a slash exactly when it is a dot among the first n - 1 dots, where n counts the dots before the first bar. With n = 0 every dot becomes a slash. |
| Inputs.SolrPathOneDot | asset_scanner/plugins/input_plugins/solr_input.py:75-76 | An id with a single dot before the bar is left unchanged. |
| Inputs.SolrPathKeepsExtension | asset_scanner/plugins/input_plugins/solr_input.py:73-76 | The id dir.name.ext becomes the path dir/name.ext, so the extension's dot survives. |
| Inputs.SolrOutput | stac_generator/plugins/inputs/solr.py:130-143 | A document yields output exactly when its id is a string: the path under uri, then each extra term as doc.get(key). |
| Inputs.SolrSetup | asset_scanner/plugins/input_plugins/solr_input.py:42-56 | The URL is http://{index_node}/solr/{core}/select, with core defaulting to files. The parameters come from search_params, and a search_params that is not a dict fails on get. |
| Inputs.SolrParams | asset_scanner/plugins/input_plugins/solr_input.py:48-56 | There are exactly six parameters, each the configured value or its default (on, *:*, json, 10000 from chunk_size, id asc). The cursor starts at *. |
| Inputs.SolrDocs | asset_scanner/plugins/input_plugins/solr_input.py:58-69 | An empty first page yields nothing; otherwise the documents start with the first page's. |
| Inputs.SolrPage | asset_scanner/plugins/input_plugins/solr_input.py:58-69 | one request of iter_docs: its documents are yielded, an empty page stops the iteration, and otherwise the next request uses nextCursorMark |
| Strings.Replace | stac_generator/plugins/inputs/solr.py:138 | str.replace on single characters keeps the length, and only occurrences of the old character change. |
| Strings.ReplaceAt | stac_generator/plugins/inputs/solr.py:138 | An occurrence is rewritten exactly when fewer than count occurrences precede it, or always when count is negative. Other positions keep their character. |
| Aggregator.FacetValues | asset_scanner/plugins/processors/elasticsearch_aggregator.py:137-159 | A falsy aggregation gives no values. A first page without an after_key gives exactly its bucket keys. Otherwise the values start with the first page's keys. |
| Aggregator.FacetPage | asset_scanner/plugins/processors/elasticsearch_aggregator.py:53-67 | a falsy aggregations entry gives no values and no after_key; otherwise the bucket keys are the page's values, and paging continues with the after_key exactly when it is truthy |
| Aggregator.FacetValuesFollowAfterKey | asset_scanner/plugins/processors/elasticsearch_aggregator.py:153-157 | A truthy after_key is sent as the next request's after, and the first page's keys are followed by the rest of the paging from that key. |
| Aggregator.FacetValuesLoop | asset_scanner/plugins/processors/elasticsearch_aggregator.py:149-159 | The while loop completes exactly when the recursive definition does, giving the same values. |
| Aggregator.ValueAsString | asset_scanner/plugins/processors/elasticsearch_aggregator.py:179 | The reading succeeds exactly when the aggregation exists and is a dict; it is then its value_as_string, or None. |
| Aggregator.ReadStamps | asset_scanner/plugins/processors/elasticsearch_aggregator.py:177-184 | The four readings succeed together exactly when each one succeeds, and they keep their names. |
| Aggregator.TemporalExtent | asset_scanner/plugins/processors/elasticsearch_aggregator.py:162-195 | A missing aggregations key is a KeyError and falsy aggregations give None. Otherwise start/end win when either is set; else min/max when both are set; else None. |
| Aggregator.StartEndOverrideMinMax | asset_scanner/plugins/processors/elasticsearch_aggregator.py:177-190 | whenever start or end has a value the extent is [[start, end]], and replacing the min/max aggregations by any readable ones leaves it unchanged |
| Aggregator.OpenRangeKept | asset_scanner/plugins/processors/elasticsearch_aggregator.py:186-190 | A start without an end gives [[start, None]]; the datetime fallback is not consulted. |
| Aggregator.Extent | asset_scanner/plugins/processors/elasticsearch_aggregator.py:207-232 | The extent fails exactly when the temporal extent does. It holds only temporal, and holds it exactly when that extent is truthy. |
| Aggregator.Summarise | asset_scanner/plugins/processors/elasticsearch_aggregator.py:234-262 | The summaries hold exactly the facets, from either list, that have values, each with its values. Summaries and extent appear only when non-empty. |
| Aggregator.SummariesCoverBothLists | asset_scanner/plugins/processors/elasticsearch_aggregator.py:244-251 | A facet from either the aggregation or the search list that has values is summarised with those values. |
| Esgf.FormatItem | asset_scanner/plugins/extraction_methods/esgf_solar_extract.py:55-63 | A one-element list stands for its element, and every other value is kept. |
| Esgf.FormatDoc | asset_scanner/plugins/extraction_methods/esgf_solar_extract.py:81 | Each field of the document is kept under its key and formatted. |
| Esgf.FormatItemTwice | asset_scanner/plugins/extraction_methods/esgf_solar_extract.py:55-63 | Formatting twice equals formatting once, except for a one-element list nested in a one-element list. |
| Esgf.Metadata | asset_scanner/plugins/extraction_methods/esgf_solar_extract.py:65-82 | The metadata exists exactly when the search finds a document; it is then the formatted first one. |
| Esgf.Links | asset_scanner/plugins/extraction_methods/esgf_solar_extract.py:105-107 | A list of links reads exactly when each entry is a string with three bar-separated parts. As written, a non-empty single string fails; corrected, it is the one link. |
| Esgf.SplitAll | asset_scanner/plugins/extraction_methods/esgf_solar_extract.py:107 | Splitting succeeds exactly when every entry is a string of three parts, and gives one (url, method) link per entry. |
| Esgf.Hrefs | asset_scanner/plugins/extraction_methods/esgf_solar_extract.py:107 | There is one entry per access method among the links. |
| Esgf.HrefsLastWins | asset_scanner/plugins/extraction_methods/esgf_solar_extract.py:107 | The url kept for a method is that of the last link with that method. |
| Esgf.ExtractUrl | asset_scanner/plugins/extraction_methods/esgf_solar_extract.py:104-111 | A missing url is a KeyError, and links without HTTPServer give a KeyError. On success, location is the raw field, href is the HTTPServer url, and every other method gets its {method}_url. |
| Esgf.UrlKeys | asset_scanner/plugins/extraction_methods/esgf_solar_extract.py:110-111 | Each method adds {method}_url holding its url; keys not of that form are unchanged. |
| Esgf.SingleLinkFails | asset_scanner/plugins/extraction_methods/esgf_solar_extract.py:104-107 | A file with a single access link, flattened by format_item, fails in extract_url as written. |
| Esgf.SingleLinkCorrected | asset_scanner/plugins/extraction_methods/esgf_solar_extract.py:104-107 | Corrected, a flattened single link gives back that one link's url and method. |
| Esgf.Splitext | asset_scanner/plugins/extraction_methods/esgf_solar_extract.py:97 | Root and extension concatenate to the path. A non-empty extension is a dot with no further dot or slash after it. |
| Esgf.SplitextHasExtension | asset_scanner/plugins/extraction_methods/esgf_solar_extract.py:97 | There is an extension exactly when the last path component has a dot after some non-dot character. |
| Esgf.ExtractFilename | asset_scanner/plugins/extraction_methods/esgf_solar_extract.py:94-97 | It succeeds exactly when the title is a string. The title moves to filename, and its extension is recorded. |
| Esgf.Move | asset_scanner/plugins/extraction_methods/esgf_solar_extract.py:87-92 | Moving succeeds exactly when the key is in the metadata; the value moves into the info and leaves the metadata. |
| Esgf.RemoveFields | asset_scanner/plugins/extraction_methods/esgf_solar_extract.py:118-128 | Exactly the five listed fields are dropped, absent ones ignored, and every other field is kept. |
| Esgf.ExtractProperties | asset_scanner/plugins/extraction_methods/esgf_solar_extract.py:99-102 | It succeeds exactly when id is present; properties is then the rest of the metadata plus file_id. |
| Esgf.DatasetBbox | asset_scanner/plugins/extraction_methods/esgf_solar_extract.py:159-168 | A box exists exactly when all four degree keys do, with south/north as min/max latitude. As written, west is max_lon and east is min_lon; corrected, the reverse. |
| Esgf.CopyPresent | asset_scanner/plugins/extraction_methods/esgf_solar_extract.py:152-156 | The dataset-only keys present in the dataset are copied over the properties; other properties are kept. |
| Esgf.ItemInfo | asset_scanner/plugins/extraction_methods/esgf_solar_extract.py:130-168 | A list or dict dataset_id is unhashable, so the cached lookup raises TypeError. It succeeds exactly when dataset_id is present and hashable and its dataset is found. The result is the copied dataset keys, plus the box when there is one. Other properties are kept. |
| Esgf.LongitudesSwapped | asset_scanner/plugins/extraction_methods/esgf_solar_extract.py:160-165 | A dataset from west 10 to east 20 gets min_lon 20 and max_lon 10 as written, and 10 and 20 when corrected. |
| Esgf.CorrectedBboxOrdered | asset_scanner/plugins/extraction_methods/esgf_solar_extract.py:160-165 | Corrected, west <= east gives min_lon <= max_lon. |
| Esgf.FileInfo | asset_scanner/plugins/extraction_methods/esgf_solar_extract.py:181-185 | Success needs every file-level field. The info then gains href, location, size, filename, extension, checksums and ids. The remaining metadata is a part of the input. |
| Esgf.FileIdKept | asset_scanner/plugins/extraction_methods/esgf_solar_extract.py:142-165 | file_id is neither a dataset-only key nor a box key, so the dataset info never overwrites it. |
| Esgf.Steps | asset_scanner/plugins/extraction_methods/esgf_solar_extract.py:181-190 | A successful run adds exactly properties to the file-level info, and the properties keep the document's id as file_id. |
| Esgf.Run | asset_scanner/plugins/extraction_methods/esgf_solar_extract.py:172-192 | No document for the id is an IndexError, and a document without url is a KeyError. Otherwise the steps run on the formatted document. |
| Esgf.UriToId | asset_scanner/plugins/extraction_methods/esgf_solar_extract.py:175 | Every slash of the uri becomes a dot, and nothing else changes. |
| ScannerUtils.SchemeLen | asset_scanner/plugins/extraction_methods/utils.py:37 | The length of the longest prefix matching [a-z][a-z0-9]*: every character in it matches and the next one does not. |
| ScannerUtils.SchemeRun | asset_scanner/plugins/extraction_methods/utils.py:37 | the length of the longest run of [a-z0-9] characters at the start: every character in it matches and the next one does not |
| ScannerUtils.IsRemoteUri | asset_scanner/plugins/extraction_methods/utils.py:32-37 | a path read as remote matches the regular expression at some scheme length, and so contains a colon |
| ScannerUtils.IsRemoteUriMeansMatch | asset_scanner/plugins/extraction_methods/utils.py:32-37 | The greedy scheme-then-separator reading holds exactly when some scheme prefix is followed by :// or ::, as the regular expression asks. |
| ScannerUtils.RemoteExamples | stac_generator/core/utils.py:235-240 | s3://bucket is remote, and /badc/file.nc is not. |
| ScannerUtils.GenerateItemId | asset_scanner/plugins/extraction_methods/utils.py:40-55 | A missing aggregation facet hashes {collection_id}.{filepath}. With all facets present, the id succeeds exactly when each piece does, and hashes the collection id and the pieces joined with dots. A non-string collection id fails. |
| ScannerUtils.ListFacetIsMulti | asset_scanner/plugins/extraction_methods/utils.py:52-53 | A list-valued facet contributes multi_{facet}, whatever the list holds. |
| ScannerUtils.IntFacetFails | asset_scanner/plugins/extraction_methods/utils.py:50-51 | As written, an integer facet makes the join raise; corrected, the integer is printed into the id. |
| Paths.Components | stac_generator/core/baker.py:136 | The components kept are pieces of the input, never empty and never ".", and there are no more of them than pieces. |
| Paths.ParsePathStr | stac_generator/core/baker.py:81 | Printing a normal path with str() and parsing it again gives back the same path. |

## Left out

- Network, filesystem and YAML loading, entry-point discovery, clocks, logging and the TTL and `lru_cache` caches. Responses and file contents are parameters, and cached calls behave like uncached ones.
- Solr and Elasticsearch response parsing: a Solr response is taken as its documents and next cursor, and an Elasticsearch aggregation as `Aggregator.FacetAggregation`, its bucket keys and `after_key`.
- UTF-8 decoding of broker messages, and `json.loads` / `ast.literal_eval`. Their combined result is the `parsed` parameter of `Inputs.DecodeMessage`.
- Float parsing and formatting, `strptime`/`dateutil` parsing, regular-expression matching and md5 hashing. These are the `Values.Foreign` functions, with no properties assumed.
- Python's numeric equality across types (`1 == 1.0 == True`): the model compares values structurally.
- Aliasing and in-place mutation of shared dicts: every operation returns new values. The one in-place change that lands in the returned body itself, the ring Geometry.PolygonRun closes under `coordinates_term`, is written into that body.
- Concurrency of the blocking inputs and the output threads: the model runs sequentially.
- `run_processors` of the asset scanner, which refers to an unbound `tags`, and the `hash_extract` helpers it calls.
- `extract_timestamp` of the ESGF extractor, which `run` never calls.
- Esgf.Links: a `url` field that is a dict is approximated as a TypeError, whereas Python iterates its keys.
- Esgf.Run: the `info` entries written before a failing step are lost in the model, whereas Python's `self.info` keeps them.
- Inputs.SolrSetup: pydantic validation of the generator's Solr parameters is not modelled. Both Solr inputs are given the asset scanner's defaults, which are the same values.
- Postprocessors.IsoDateKey: `expected_terms` of the ISO date post-processor returns its input unchanged, so it has no member.
- Geometry.GeometryToBboxRun: comparing non-numeric coordinates is approximated as a TypeError, and comparing an int with a float as real numbers.
- Geometry.Close: an int and an equal float count as different positions.
- Extraction.MapName: `term_map` values are taken to be strings, with `""` standing for every falsy value. A truthy non-string value is not modelled.
- Paging.Collect: the number of follow-up requests is bounded by a `fuel` parameter, and exhausting it gives None. This is the only limit on a paging loop that Python would run indefinitely.
- Describers.PathEntries: the keys of a mapping are visited in ascending order, whereas Python visits them in the YAML file's order. The same keys are visited, each once.
- Describers.RegisteredPaths: a mapping under `paths` or `datasets` registers its keys in ascending order rather than in file order; the same paths are registered.
- Baker.LoadData: a mapping under `member_of` loads its keys in ascending order rather than in file order, so the order of the recipe's `links`, and which linked recipe claims a shared path last, can differ from Python's.
- Baker.LoadOldLinks: a mapping under `member_of` loads its keys in ascending order rather than in file order, so the order of the recipe's `member_of` can differ from Python's.
- Baker.LoadData: recursion through the `member_of` links of recipes is bounded by `fuel`, in place of Python's recursion limit.
- Recipe keys: a key is the md5 of the recipe's JSON dump, and both are foreign calls. The model proves nothing about which recipes share a key.
- Registry.LoadAll: its own contract does not state the order of what it keeps. Registry.LoadAllKeepsLoaded states that, for the case where every entry loads, which is the only case in which the loop returns.
- Merge.MergeDicts: where several keys hold values of different types, the model's MergeConflict names every such key. Python raises TypeError for the first of them in the accumulator's insertion order, an order the model does not track.
- Baker.LoadOldRecipe: a linked recipe whose `paths` is null is refused, as the serializer of baker.py would refuse it. baker_old.py keeps such a recipe, because it iterates the paths of first-level recipes only.
- Values.Items: a dict's keys are visited in ascending order rather than in insertion order.
- Extraction.StringJoinRun: models `StringJoinExtract.run(uri, body)` on its body. The generator calls every extraction method as `run(body)` (stac_generator/core/generator.py:123), which for this two-argument `run` raises TypeError for the missing `body`. The call through the generator is not modelled separately, because `pick` in Generator.LoadExtractionMethod is a parameter.
- Paths.ParsePath: pathlib keeps exactly two leading slashes as the root `//`. The model reads them as the root `/`, and `..` stays an ordinary component, as in pathlib.

## Findings

| source | as written | input that shows it | evidently intended | confidence | as-written member | corrected member |
|---|---|---|---|---|---|---|
| stac_generator/core/utils.py:168-172 | Lenient `dict_merge` appends a scalar to the incoming list of its type but never stores that list, so the scalar is kept and the list is dropped | `{"a": "x"}` merged with `{"a": ["y"]}` gives `{"a": "x"}` | `{"a": ["y", "x"]}`: the scalar folds into the list | not executed | MergeProperties.ScalarFoldCounterexample | MergeProperties.LenientFoldsScalar |
| asset_scanner/core/handler_picker.py:46-50 | An unregistered processor name logs through a `LOGGER` the module never defines, so loading raises NameError | a processor configuration `{"name": n}` with `n` unregistered | the name is skipped and no processor is returned | not executed | Registry.UnregisteredNameSkipped | Registry.GetProcessor |
| stac_generator/core/baker.py:163 | The lookup chains the raw string with the `Path` parents, and a `str` never equals a `Path` key, so the path itself is never matched | a path registered exactly by a recipe, with no registered ancestor | the path's own recipe is found | not executed | Baker.RegisteredPathItselfIgnored | Baker.Candidates |
| stac_generator/core/baker_old.py:117 | The recipe-file check looks up the raw string among `Path` keys, so it never succeeds | a recipe file asked for by its own path | that recipe is returned | not executed | Baker.OldRecipeFileIgnored | Baker.OldGet |
| stac_generator/plugins/postprocessors/facet_prefix.py:75-78 | `expected_terms` joins prefix and term with `.`, while `run` writes `prefix:term` | body `{"a": 1}`, prefix `p`, terms `["a"]`: predicted `p.a`, written `p:a` | the prediction uses `:` | not executed | Postprocessors.ExpectedFacetPrefixMisses | Postprocessors.ExpectedFacetPrefixAgrees |
| stac_generator/plugins/postprocessors/bbox.py:88 | `return term_list.append("bbox")` returns None (likewise in the geometry and string-join post-processors) | any term list | the term list with the output key added | not executed | Postprocessors.ExpectedAppended | Postprocessors.ExpectedBboxAgrees |
| stac_generator/plugins/id_extraction_methods/hash.py:82-83 | An int term passes the `isinstance(..., (str, int))` test and then makes `".".join` raise TypeError (likewise dot_seperated_str.py:63-64 and the asset scanner's utils.py:50-51) | a term whose value is `1` | the integer is printed into the id | not executed | Extraction.IntTermFails | Extraction.HashIdRun |
| asset_scanner/plugins/extraction_methods/esgf_solar_extract.py:160-165 | `max_lon` is read from `west_degrees` and `min_lon` from `east_degrees` | west 10, east 20 gives `min_lon` 20 and `max_lon` 10 | `min_lon` from west and `max_lon` from east | not executed | Esgf.LongitudesSwapped | Esgf.CorrectedBboxOrdered |
| asset_scanner/plugins/extraction_methods/esgf_solar_extract.py:104-107 | `format_item` (lines 61-62) flattens a one-link `url` list to its string, which `extract_url` then iterates character by character; no character splits into three parts | a file whose `url` is `["u|application/netcdf|HTTPServer"]` | the string is read as the one link | not executed | Esgf.SingleLinkFails | Esgf.SingleLinkCorrected |
| stac_generator/plugins/mappings/stac.py:198-201 | `run` reads `kwargs["GENERATOR_TYPE"]`, but `process` (stac_generator/core/generator.py:191) sets only `kwargs["TYPE"]`, so the STAC mapping raises KeyError | `process(uri)` for an item generator with no extra keyword arguments, once the mapping call below is corrected | the mapping dispatches on the generator type, as `CEDAMapping.run` does through `kwargs["TYPE"].value` | not executed | Mappings.ProcessedCallFails | Mappings.ProcessedCallMapped |
| stac_generator/core/generator.py:156 | `map` calls `mapping.run(ids, body, description, **kwargs)`, but every mapping declares `run(self, body, recipe, **kwargs)` (stac_generator/core/mapping.py:38, stac.py:192, ceda.py:35, jinja2.py:36), so the first configured mapping raises TypeError | any item with one mapping configured, as stac_generator/plugins/generators/item.py:97 maps it | `mapping.run(body, description, **kwargs)`: each mapping applied to the previous one's output | not executed | Generator.OneMappingFails | Generator.MapAppend |
| stac_generator/core/generator.py:167 | `output` forwards its keyword arguments to `output.run(data, **kwargs)`, but `run` takes `data` only (stac_generator/core/output.py:38, bulk_output.py:62) and no output plugin overrides it, so any keyword argument raises TypeError | the item generator's `self.output(data, description=description, **kwargs)` (stac_generator/plugins/generators/item.py:99) with one output configured | the keyword arguments are not passed on to `run` | not executed | Generator.KeywordOutputFails | Generator.KeywordsIgnoredWhenCorrected |
