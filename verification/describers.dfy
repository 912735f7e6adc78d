/** The description stores of asset_scanner: collection descriptions
    (asset_scanner/core/collection_describer.py) and item descriptions
    (asset_scanner/core/item_describer.py).

    Each store registers YAML description files against dataset paths in a
    tree; a lookup collects the files registered along a path, from the root
    down, and merges them with the strict `dict_merge`. The tree search itself
    (the external `DatasetNode`) is not part of this model: a lookup takes the
    parsed files the search found, top-down, as a parameter. */
module Describers {
  import opened Wrappers
  import opened Values
  import opened Strings
  import opened Merge
  import MergeProperties

  /** `get_description` of the collection store: a path not starting with
      `/` (a remote URI, say) gets one prepended so that the search from the
      root `/` can match it; an empty path fails at `filepath[0]`. */
  function RootedPath(filepath: string): (r: Outcome<string>)
    ensures filepath == "" <==> r.Err?
    ensures r.Err? ==> r.error == IndexError
    ensures r.Ok? ==> |r.value| > 0 && r.value[0] == '/'
    ensures r.Ok? ==> |filepath| <= |r.value| <= |filepath| + 1
    ensures r.Ok? ==> r.value[|r.value| - |filepath|..] == filepath
    ensures r.Ok? && filepath[0] == '/' ==> r.value == filepath
  {
    if filepath == "" then Err(IndexError)
    else if filepath[0] == '/' then Ok(filepath)
    else Ok("/" + filepath)
  }

  /** Normalising twice is normalising once, and a path changes only if it
      was not rooted. */
  lemma RootedPathIdempotent(filepath: string)
    requires filepath != ""
    ensures RootedPath(RootedPath(filepath).value) == RootedPath(filepath)
    ensures RootedPath(filepath) == Ok(filepath) <==> filepath[0] == '/'
  {
  }

  /** The values a `for` loop visits in a configured `paths` (or `datasets`)
      entry: a list's elements, a string's characters, or a mapping's keys.
      The keys come in ascending order, where Python follows the order of
      the YAML file; every key is visited exactly once either way. Anything
      else is not iterable. */
  function PathEntries(v: Value): (r: Outcome<seq<Value>>)
    ensures r.Ok? <==> v.List? || v.Str? || v.Dict?
    ensures r.Err? ==> r.error.TypeError?
    ensures v.List? ==> r == Ok(v.items)
    ensures v.Str? ==> r.Ok? && |r.value| == |v.s| && forall i :: 0 <= i < |v.s| ==> r.value[i] == Str([v.s[i]])
    ensures v.Dict? ==> r.Ok? && |r.value| == |v.fields.Keys|
    ensures v.Dict? ==> forall i :: 0 <= i < |r.value| ==> r.value[i].Str? && r.value[i].s in v.fields
    ensures v.Dict? ==> forall k :: k in v.fields ==> Str(k) in r.value
    ensures v.Dict? ==> forall i, j :: 0 <= i < j < |r.value| ==> r.value[i] != r.value[j]
  {
    match v
    case List(xs) => Ok(xs)
    case Str(s) => Ok(seq(|s|, i requires 0 <= i < |s| => Str([s[i]])))
    case Dict(m) => Ok(KeyValues(m))
    case _ => Err(TypeError("object is not iterable"))
  }

  /** `_build_tree`: the dataset paths one description file registers under
      `key` (`"paths"` for collections, `"datasets"` for items), with trailing
      slashes stripped so that the tree search matches them. A file that is
      not a mapping has no `get`; a path that is not a string has no `rstrip`.
      A mapping under the key registers its keys. */
  function RegisteredPaths(data: Value, key: string): (r: Outcome<seq<string>>)
    ensures !data.Dict? ==> r == Err(AttributeError("get"))
    ensures data.Dict? && key !in data.fields ==> r == Ok([])
    ensures r.Ok? && data.Dict? && key in data.fields && data.fields[key].List? ==>
      |r.value| == |data.fields[key].items|
      && forall i :: 0 <= i < |r.value| ==>
           data.fields[key].items[i].Str?
           && r.value[i] == TrimEnd(data.fields[key].items[i].s, '/')
    ensures data.Dict? && key in data.fields && data.fields[key].Dict? ==>
      r.Ok? && |r.value| == |data.fields[key].fields.Keys|
      && forall k :: k in data.fields[key].fields ==> TrimEnd(k, '/') in r.value
    ensures r.Ok? ==> forall i :: 0 <= i < |r.value| ==> r.value[i] == "" || r.value[i][|r.value[i]| - 1] != '/'
  {
    if !data.Dict? then Err(AttributeError("get"))
    else EntryPaths(if key in data.fields then data.fields[key] else List([]))
  }

  /** The paths `_build_tree` registers for the value found under the key. */
  function EntryPaths(v: Value): (r: Outcome<seq<string>>)
    ensures v == List([]) ==> r == Ok([])
    ensures r.Ok? && v.List? ==>
      |r.value| == |v.items| && forall i :: 0 <= i < |r.value| ==> v.items[i].Str? && r.value[i] == TrimEnd(v.items[i].s, '/')
    ensures v.Dict? ==> r.Ok? && |r.value| == |v.fields.Keys| && forall k :: k in v.fields ==> TrimEnd(k, '/') in r.value
    ensures r.Ok? ==> forall i :: 0 <= i < |r.value| ==> r.value[i] == "" || r.value[i][|r.value[i]| - 1] != '/'
  {
    match PathEntries(v)
    case Err(e) => Err(e)
    case Ok(entries) =>
      var r := StripEntries(entries);
      assert v.Dict? ==> forall k :: k in v.fields ==> TrimEnd(k, '/') in r.value by {
        if v.Dict? {
          forall k | k in v.fields ensures TrimEnd(k, '/') in r.value {
            var i :| 0 <= i < |entries| && entries[i] == Str(k);
            assert r.value[i] == TrimEnd(k, '/');
          }
        }
      }
      r
  }

  /** The loop body of `_build_tree` over the entries: each must be a string,
      and loses its trailing slashes. */
  function StripEntries(entries: seq<Value>): (r: Outcome<seq<string>>)
    ensures r.Ok? <==> forall i :: 0 <= i < |entries| ==> entries[i].Str?
    ensures r.Err? ==> r == Err(AttributeError("rstrip"))
    ensures r.Ok? ==> |r.value| == |entries| && forall i :: 0 <= i < |entries| ==> r.value[i] == TrimEnd(entries[i].s, '/')
  {
    if forall i :: 0 <= i < |entries| ==> entries[i].Str? then
      Ok(seq(|entries|, i requires 0 <= i < |entries| => TrimEnd(entries[i].s, '/')))
    else Err(AttributeError("rstrip"))
  }

  /** Stripping the trailing slashes only removes slashes, and stripping again
      changes nothing. */
  lemma StripIdempotent(s: string)
    ensures TrimEnd(TrimEnd(s, '/'), '/') == TrimEnd(s, '/')
    ensures s == TrimEnd(s, '/') + s[|TrimEnd(s, '/')|..]
  {
  }

  /** The merge fold of `load_config`, from the accumulator `acc`: each file
      is merged into what the files above it gave. A file that is not a
      mapping has no `items`. */
  function MergeFiles(acc: Body, files: seq<Value>): (r: Outcome<Body>)
    decreases |files|
    ensures r.Ok? ==> forall i :: 0 <= i < |files| ==> files[i].Dict?
    ensures r.Ok? ==> acc.Keys <= r.value.Keys
  {
    if |files| == 0 then Ok(acc)
    else if !files[0].Dict? then Err(AttributeError("items"))
    else
      match MergeDicts(Strict, acc, files[0].fields, true)
      case Err(e) => Err(e)
      case Ok(next) =>
        var r := MergeFiles(next, files[1..]);
        assert r.Ok? ==> forall i :: 1 <= i < |files| ==> files[i] == files[1..][i - 1];
        r
  }

  /** `load_config(*files)` of either store: the files merged top-down,
      starting from `{}`. */
  function LoadConfig(files: seq<Value>): (r: Outcome<Body>)
    ensures files == [] ==> r == Ok(map[])
    ensures r.Ok? ==> forall i :: 0 <= i < |files| ==> files[i].Dict? && files[i].fields.Keys <= r.value.Keys
  {
    var r := MergeFiles(map[], files);
    if r.Ok? then
      MergeFilesKeys(map[], files);
      r
    else r
  }

  /** Every key of every merged file is in the result. */
  lemma {:induction false} MergeFilesKeys(acc: Body, files: seq<Value>)
    requires MergeFiles(acc, files).Ok?
    ensures forall i :: 0 <= i < |files| ==> files[i].Dict? && files[i].fields.Keys <= MergeFiles(acc, files).value.Keys
    decreases |files|
  {
    if |files| > 0 {
      var next := MergeDicts(Strict, acc, files[0].fields, true).value;
      MergeFilesKeys(next, files[1..]);
      assert forall i :: 1 <= i < |files| ==> files[i] == files[1..][i - 1];
    }
  }

  /** Merging into the empty dict gives the file back: a single matching
      description is used as it is. */
  lemma MergeIntoEmpty(d: Body)
    ensures MergeDicts(Strict, map[], d, true) == Ok(d)
  {
    var e: Body := map[];
    var rs := KeyOutcomes(Strict, e, d, true);
    assert forall k | k in rs :: rs[k] == Ok(d[k]);
    assert MergeDicts(Strict, e, d, true).Ok?;
    var m := MergeDicts(Strict, e, d, true).value;
    assert m.Keys == d.Keys;
    assert forall k | k in m :: m[k] == d[k];
    assert m == d;
  }

  /** Top-down: the more specific file is merged last, on top of what the
      files above it gave. */
  lemma {:induction false} MergeFilesAppend(acc: Body, files: seq<Value>, d: Body)
    ensures MergeFiles(acc, files + [Dict(d)]) ==
      match MergeFiles(acc, files)
      case Err(e) => Err(e)
      case Ok(m) => MergeDicts(Strict, m, d, true)
    decreases |files|
  {
    if |files| == 0 {
      assert files + [Dict(d)] == [Dict(d)];
      assert [Dict(d)][1..] == [];
    } else {
      assert (files + [Dict(d)])[0] == files[0];
      assert (files + [Dict(d)])[1..] == files[1..] + [Dict(d)];
      if files[0].Dict? {
        var s := MergeDicts(Strict, acc, files[0].fields, true);
        if s.Ok? {
          MergeFilesAppend(s.value, files[1..], d);
        }
      }
    }
  }

  /** A single description file is the description. */
  lemma LoadConfigSingle(d: Body)
    ensures LoadConfig([Dict(d)]) == Ok(d)
  {
    MergeIntoEmpty(d);
    assert [Dict(d)][1..] == [];
    assert MergeFiles(d, []) == Ok(d);
    assert MergeFiles(map[], [Dict(d)]) == MergeFiles(d, []);
  }

  /** More specific files override: a truthy scalar that the files above give
      for `k` is replaced by the value of the same type in the next, more
      specific file. */
  lemma LaterFileOverrides(files: seq<Value>, d: Body, k: string)
    requires LoadConfig(files).Ok? && LoadConfig(files + [Dict(d)]).Ok?
    requires k in LoadConfig(files).value && k in d && Truthy(LoadConfig(files).value[k])
    requires TypeOf(LoadConfig(files).value[k]) == TypeOf(d[k])
    requires !d[k].List? && !d[k].Dict?
    ensures k in LoadConfig(files + [Dict(d)]).value && LoadConfig(files + [Dict(d)]).value[k] == d[k]
  {
    MergeFilesAppend(map[], files, d);
    MergeProperties.LaterScalarWins(Strict, LoadConfig(files).value, d, true, k);
  }

  /** A configured category of a collection description. */
  datatype Category = Category(tag: string, pattern: string)

  /** The `STACModel` part of a collection description: how to build the
      id and the extraction methods to run, all defaulting to empty. */
  datatype StacModel = StacModel(id: Body, extractionMethods: seq<Body>, postExtractionMethods: seq<Body>)

  /** A validated `CollectionDescription`. */
  datatype CollectionDescription = CollectionDescription(
    paths: seq<Value>,
    asset: Option<StacModel>,
    item: Option<StacModel>,
    collection: Option<StacModel>,
    categories: seq<Category>)

  /** The pydantic error; it is a ValueError. */
  const Invalid := ValueError("validation error")

  /** A `list[dict]` field of `STACModel`, defaulting to `[]`. */
  function DictList(d: Body, key: string): (r: Outcome<seq<Body>>)
    ensures key !in d ==> r == Ok([])
    ensures r.Ok? && key in d ==> (d[key].List? && |r.value| == |d[key].items|
      && forall i :: 0 <= i < |r.value| ==> d[key].items[i] == Dict(r.value[i]))
  {
    if key !in d then Ok([])
    else match d[key]
      case List(xs) =>
        if forall i :: 0 <= i < |xs| ==> xs[i].Dict? then Ok(seq(|xs|, i requires 0 <= i < |xs| => xs[i].fields))
        else Err(Invalid)
      case _ => Err(Invalid)
  }

  /** An `Optional[STACModel]` field: absent or None is None. */
  function OptionalStacModel(d: Body, key: string): (r: Outcome<Option<StacModel>>)
    ensures key !in d || d[key] == Null ==> r == Ok(None)
    ensures r.Ok? && r.value.Some? ==> key in d && d[key].Dict?
    ensures r.Ok? && r.value.Some? ==> var m := d[key].fields;
      (("id" !in m && r.value.value.id == map[]) || ("id" in m && m["id"] == Dict(r.value.value.id)))
      && Ok(r.value.value.extractionMethods) == DictList(m, "extraction_methods")
      && Ok(r.value.value.postExtractionMethods) == DictList(m, "post_extraction_methods")
  {
    if key !in d || d[key] == Null then Ok(None)
    else if !d[key].Dict? then Err(Invalid)
    else
      var m := d[key].fields;
      var id := if "id" in m then m["id"] else Dict(map[]);
      if !id.Dict? then Err(Invalid)
      else
        match DictList(m, "extraction_methods")
        case Err(e) => Err(e)
        case Ok(ems) =>
          match DictList(m, "post_extraction_methods")
          case Err(e) => Err(e)
          case Ok(posts) => Ok(Some(StacModel(id.fields, ems, posts)))
  }

  /** A `str` field as pydantic reads it: a number becomes its text. */
  function StrField(v: Value, fx: Foreign): (r: Outcome<string>)
    ensures v.Str? ==> r == Ok(v.s)
    ensures r.Ok? <==> v.Str? || v.Int? || v.Float? || v.Bool?
  {
    if v.Str? || v.Int? || v.Float? || v.Bool? then Ok(PyStr(v, fx)) else Err(Invalid)
  }

  /** One entry of `categories`: a mapping with a `label` and a `regex`. */
  function ParseCategory(v: Value, fx: Foreign): (r: Outcome<Category>)
    ensures r.Ok? ==> v.Dict? && "label" in v.fields && "regex" in v.fields
    ensures r.Ok? ==> StrField(v.fields["label"], fx) == Ok(r.value.tag) && StrField(v.fields["regex"], fx) == Ok(r.value.pattern)
  {
    if !v.Dict? || "label" !in v.fields || "regex" !in v.fields then Err(Invalid)
    else
      match StrField(v.fields["label"], fx)
      case Err(e) => Err(e)
      case Ok(tag) =>
        match StrField(v.fields["regex"], fx)
        case Err(e) => Err(e)
        case Ok(pattern) => Ok(Category(tag, pattern))
  }

  /** The `categories` list, in order. */
  function ParseCategories(xs: seq<Value>, fx: Foreign): (r: Outcome<seq<Category>>)
    decreases |xs|
    ensures r.Ok? ==> |r.value| == |xs| && forall i :: 0 <= i < |xs| ==> ParseCategory(xs[i], fx) == Ok(r.value[i])
  {
    if |xs| == 0 then Ok([])
    else
      match ParseCategory(xs[0], fx)
      case Err(e) => Err(e)
      case Ok(c) =>
        match ParseCategories(xs[1..], fx)
        case Err(e) => Err(e)
        case Ok(cs) =>
          assert forall i :: 1 <= i < |xs| ==> xs[i] == xs[1..][i - 1];
          Ok([c] + cs)
  }

  /** `CollectionDescription(**merged)`: `paths` is required and must be a
      list; the three STAC models default to None and `categories` to `[]`.
      Unknown keys are ignored. */
  function ValidateCollection(d: Body, fx: Foreign): (r: Outcome<CollectionDescription>)
    ensures "paths" !in d || !d["paths"].List? ==> r == Err(Invalid)
    ensures r.Ok? ==> "paths" in d && d["paths"] == List(r.value.paths)
    ensures r.Ok? ==> (OptionalStacModel(d, "asset") == Ok(r.value.asset)
      && OptionalStacModel(d, "item") == Ok(r.value.item)
      && OptionalStacModel(d, "collection") == Ok(r.value.collection))
    ensures r.Ok? && "categories" !in d ==> r.value.categories == []
    ensures r.Ok? && "categories" in d ==> d["categories"].List? && ParseCategories(d["categories"].items, fx) == Ok(r.value.categories)
  {
    if "paths" !in d || !d["paths"].List? then Err(Invalid)
    else
      var cats := if "categories" in d then d["categories"] else List([]);
      if !cats.List? then Err(Invalid)
      else
        match OptionalStacModel(d, "asset")
        case Err(e) => Err(e)
        case Ok(asset) =>
          match OptionalStacModel(d, "item")
          case Err(e) => Err(e)
          case Ok(item) =>
            match OptionalStacModel(d, "collection")
            case Err(e) => Err(e)
            case Ok(collection) =>
              match ParseCategories(cats.items, fx)
              case Err(e) => Err(e)
              case Ok(cs) => Ok(CollectionDescription(d["paths"].items, asset, item, collection, cs))
  }

  /** `CollectionDescriptions.get_description(filepath)`, given the parsed
      files the tree search finds for the rooted path, top-down. */
  function GetCollectionDescription(filepath: string, found: seq<Value>, fx: Foreign): (r: Outcome<CollectionDescription>)
    ensures filepath == "" ==> r == Err(IndexError)
    ensures r.Ok? ==> LoadConfig(found).Ok? && ValidateCollection(LoadConfig(found).value, fx) == r
  {
    match RootedPath(filepath)
    case Err(e) => Err(e)
    case Ok(_) =>
      match LoadConfig(found)
      case Err(e) => Err(e)
      case Ok(merged) => ValidateCollection(merged, fx)
  }

  /** `ItemDescription`: accessors over the merged item description. */
  datatype ItemDescription = ItemDescription(description: Body)
  {
    /** `description.get(key, default)`: one top-level section, or the
        default when the description has none. */
    function Section(key: string, default: Value): (r: Value)
      ensures key in description ==> r == description[key]
      ensures key !in description ==> r == default
    {
      if key in description then description[key] else default
    }

    /** `defaults`, `{}` when absent. */
    function Defaults(): (r: Value)
      ensures "defaults" in description ==> r == description["defaults"]
      ensures "defaults" !in description ==> r == Dict(map[])
    {
      Section("defaults", Dict(map[]))
    }

    /** `overrides`, None when absent. */
    function Overrides(): (r: Value)
      ensures "overrides" !in description ==> r == Null
      ensures "overrides" in description ==> r == description["overrides"]
    {
      Section("overrides", Null)
    }

    /** `mappings`, None when absent. */
    function Mappings(): (r: Value)
      ensures "mappings" !in description ==> r == Null
      ensures "mappings" in description ==> r == description["mappings"]
    {
      Section("mappings", Null)
    }

    /** `facet_extract_conf`: the `facets` section, `{}` when absent. */
    function FacetConf(): (r: Value)
      ensures "facets" !in description ==> r == Dict(map[])
      ensures "facets" in description ==> r == description["facets"]
    {
      Section("facets", Dict(map[]))
    }

    /** An entry of the `facets` section, `[]` when absent; a `facets` value
        that is not a mapping has no `get`. */
    function Facet(key: string): (r: Outcome<Value>)
      ensures !FacetConf().Dict? ==> r == Err(AttributeError("get"))
      ensures FacetConf().Dict? && key !in FacetConf().fields ==> r == Ok(List([]))
      ensures FacetConf().Dict? && key in FacetConf().fields ==> r == Ok(FacetConf().fields[key])
    {
      var conf := FacetConf();
      if !conf.Dict? then Err(AttributeError("get"))
      else if key in conf.fields then Ok(conf.fields[key])
      else Ok(List([]))
    }

    function AllowedFacets(): Outcome<Value> { Facet("allowed_facets") }
    function ExtractionMethods(): Outcome<Value> { Facet("extraction_methods") }
    function AggregationFacets(): Outcome<Value> { Facet("aggregation_facets") }

    /** `categories`, `[]` when absent. */
    function Categories(): (r: Value)
      ensures "categories" !in description ==> r == List([])
      ensures "categories" in description ==> r == description["categories"]
    {
      Section("categories", List([]))
    }
  }

  /** `ItemDescriptions.get_description(filepath)`, given the parsed files the
      tree search finds for the path, top-down. Unlike the collection store,
      the path is searched as given. */
  function GetItemDescription(found: seq<Value>): (r: Outcome<ItemDescription>)
    ensures r.Ok? <==> LoadConfig(found).Ok?
    ensures r.Ok? ==> r.value.description == LoadConfig(found).value
  {
    match LoadConfig(found)
    case Err(e) => Err(e)
    case Ok(d) => Ok(ItemDescription(d))
  }

  /** An empty item description answers every accessor with its default. */
  lemma EmptyItemDescription()
    ensures GetItemDescription([]) == Ok(ItemDescription(map[]))
    ensures ItemDescription(map[]).Defaults() == Dict(map[])
    ensures ItemDescription(map[]).Overrides() == Null && ItemDescription(map[]).Mappings() == Null
    ensures ItemDescription(map[]).AllowedFacets() == Ok(List([]))
    ensures ItemDescription(map[]).ExtractionMethods() == Ok(List([]))
    ensures ItemDescription(map[]).AggregationFacets() == Ok(List([]))
    ensures ItemDescription(map[]).Categories() == List([])
  {
  }
}
