/** The processing core shared by asset_scanner's `BaseExtractor`
    (asset_scanner/core/extractor.py) and `BaseGenerator`
    (asset_scanner/core/generator.py): category labels, the collection id,
    running one configured processor and nesting its output under its
    `output_key`, and routing output to the backends of a namespace. */
module AssetCore {
  import opened Wrappers
  import opened Values
  import opened Dotted
  import opened Registry
  import opened Describers

  /** `_get_category(string, label, regex)`: the label iff `re.search` finds
      the regex. */
  function GetCategory(fx: Foreign, s: string, tag: string, pattern: string): (r: Option<string>)
    ensures r.Some? <==> fx.search(pattern, s)
    ensures r.Some? ==> r.value == tag
  {
    if fx.search(pattern, s) then Some(tag) else None
  }

  /** The truthy labels that apply to `s`. */
  function Matched(fx: Foreign, s: string, cats: seq<Category>): (r: set<string>)
    ensures forall l :: l in r <==> l != "" && exists i :: 0 <= i < |cats| && cats[i].tag == l && fx.search(cats[i].pattern, s)
  {
    set i | 0 <= i < |cats| && GetCategory(fx, s, cats[i].tag, cats[i].pattern).Some? && cats[i].tag != "" :: cats[i].tag
  }

  /** `get_categories`: the distinct labels that apply, or `["data"]` when
      none does. The list is built from a set, so its order is not fixed; the
      model returns the set. */
  function GetCategories(fx: Foreign, s: string, cats: seq<Category>): (r: set<string>)
    ensures r != {}
    ensures Matched(fx, s, cats) == {} ==> r == {"data"}
    ensures Matched(fx, s, cats) != {} ==> r == Matched(fx, s, cats)
  {
    var m := Matched(fx, s, cats);
    if m == {} then {"data"} else m
  }

  /** A label is reported iff it is non-empty and some category with that
      label matches, unless nothing matches at all. */
  lemma CategoryMembership(fx: Foreign, s: string, cats: seq<Category>, l: string)
    requires l != "data"
    ensures l in GetCategories(fx, s, cats) <==>
      l != "" && exists i :: 0 <= i < |cats| && cats[i].tag == l && fx.search(cats[i].pattern, s)
  {
  }

  /** `get_collection_id(description)`: the md5 of the collection's `id`,
      or of `"undefined"` without a collection. `id` is declared a dict on
      `STACModel`, and `generate_id` calls `.encode()` on it, so only a
      string id hashes; any other value raises AttributeError. */
  function GetCollectionId(fx: Foreign, collectionId: Option<Value>): (r: Outcome<string>)
    ensures collectionId.None? ==> r == Ok(fx.md5("undefined"))
    ensures collectionId.Some? ==> (r.Ok? <==> collectionId.value.Str?)
    ensures collectionId.Some? && collectionId.value.Str? ==> r == Ok(fx.md5(collectionId.value.s))
  {
    match collectionId
    case None => Ok(fx.md5("undefined"))
    case Some(Str(s)) => Ok(fx.md5(s))
    case Some(_) => Err(AttributeError("encode"))
  }

  /** `get_collection_id` on a validated description. Without a collection
      the id hashes `"undefined"`; with one, `id` is a dict, so the call
      always fails. */
  function DescribedCollectionId(fx: Foreign, d: CollectionDescription): (r: Outcome<string>)
    ensures d.collection.None? <==> r.Ok?
    ensures r.Ok? ==> r.value == fx.md5("undefined")
  {
    GetCollectionId(fx, if d.collection.Some? then Some(Dict(d.collection.value.id)) else None)
  }

  /** The last step of `_run_facet_processor` and `_run_processor`: truthy
      metadata of a processor with a truthy `output_key` is nested under that
      dotted key; otherwise it passes through. A non-string key has no
      `split`. */
  function NestUnderOutputKey(outputKey: Value, metadata: Value): (r: Outcome<Value>)
    ensures !Truthy(outputKey) || !Truthy(metadata) ==> r == Ok(metadata)
    ensures Truthy(outputKey) && Truthy(metadata) && outputKey.Str? ==> r == Ok(Dot2Dict(outputKey.s, metadata))
    ensures Truthy(outputKey) && Truthy(metadata) && !outputKey.Str? ==> r.Err?
  {
    if Truthy(outputKey) && Truthy(metadata) then
      if outputKey.Str? then Ok(Dot2Dict(outputKey.s, metadata)) else Err(AttributeError("split"))
    else Ok(metadata)
  }

  /** A dot-free key such as the default `"properties"` puts truthy metadata
      one level down under that key; an empty key leaves it where it is. */
  lemma NestUnderPlainKey(k: string, metadata: Value)
    requires k != "" && '.' !in k
    requires Truthy(metadata)
    ensures NestUnderOutputKey(Str(k), metadata) == Ok(Dict(map[k := metadata]))
    ensures NestUnderOutputKey(Str(""), metadata) == Ok(metadata)
  {
    Dot2DictSingle(k, metadata);
  }

  /** What a loaded facet processor offers the runner: its `run` on a path with
      the loaded pre- and post-processors, and its `output_key` attribute
      (None when it has none). */
  datatype Plugin<!P> = Plugin(run: (P, seq<P>, seq<P>) -> Value, outputKey: P -> Value)

  /** `_load_facet_processor` / `_load_processor`: the processor named by
      `name`, built from its `inputs` plus `output_key` (None when not
      configured); inputs that rebind `name`, `group`, `self` or
      `output_key` raise TypeError. */
  function LoadProcessor<P>(v: Variant, facets: Picker<P>, processor: map<string, Value>): (r: Outcome<Option<P>>)
    ensures "name" !in processor ==> r == Err(KeyError("name"))
    ensures r.Ok? ==> InputsOf(processor).Dict?
                      && !BindsParameter(InputsOf(processor).fields) && "output_key" !in InputsOf(processor).fields
    ensures "name" in processor && InputsOf(processor).Dict?
            && (BindsParameter(InputsOf(processor).fields) || "output_key" in InputsOf(processor).fields)
            ==> r.Err? && r.error.TypeError?
    ensures r.Ok? && r.value.Some? ==> processor["name"].Str? && processor["name"].s in facets.handlers
  {
    if "name" !in processor then Err(KeyError("name"))
    else
      var inputs := InputsOf(processor);
      var outputKey := Get(processor, "output_key");
      var name := processor["name"];
      if !inputs.Dict? then Err(TypeError("argument after ** must be a mapping"))
      else if BindsParameter(inputs.fields) || "output_key" in inputs.fields then Err(TypeError("got multiple values for an argument"))
      else if name.List? || name.Dict? then Err(TypeError("unhashable type"))
      else if !name.Str? then (if v.AsWritten? then Err(NameError("LOGGER")) else Ok(None))
      else GetProcessor(v, facets, name.s, inputs.fields["output_key" := outputKey])
  }

  /** `_run_facet_processor` / `_run_processor`: load the processor and its
      extra processors, run it, and nest the result under its `output_key`. A
      processor that could not be loaded is None, which has no `run`; that
      is found only after both lists of extra processors have loaded. */
  function RunProcessor<P>(v: Variant, facets: Picker<P>, pres: Picker<P>, posts: Picker<P>, plugin: Plugin<P>, processor: map<string, Value>): (r: Outcome<Value>)
    ensures r.Ok? ==> LoadProcessor(v, facets, processor).Ok? && LoadProcessor(v, facets, processor).value.Some?
    ensures r.Ok? ==> LoadExtraProcessors(v, pres, processor, "pre_processors").Ok?
                      && LoadExtraProcessors(v, posts, processor, "post_processors").Ok?
    ensures r.Ok? ==>
      var p := LoadProcessor(v, facets, processor).value.value;
      var m := plugin.run(p, LoadExtraProcessors(v, pres, processor, "pre_processors").value,
                          LoadExtraProcessors(v, posts, processor, "post_processors").value);
      (!Truthy(plugin.outputKey(p)) || !Truthy(m) ==> r.value == m)
      && (Truthy(plugin.outputKey(p)) && Truthy(m) ==> plugin.outputKey(p).Str? && r.value == Dot2Dict(plugin.outputKey(p).s, m))
    ensures LoadProcessor(v, facets, processor).Ok? && LoadExtraProcessors(v, pres, processor, "pre_processors").Err?
            ==> r == Err(LoadExtraProcessors(v, pres, processor, "pre_processors").error)
    ensures LoadProcessor(v, facets, processor).Ok? && LoadExtraProcessors(v, pres, processor, "pre_processors").Ok?
            && LoadExtraProcessors(v, posts, processor, "post_processors").Err?
            ==> r == Err(LoadExtraProcessors(v, posts, processor, "post_processors").error)
    ensures LoadProcessor(v, facets, processor) == Ok(None) && LoadExtraProcessors(v, pres, processor, "pre_processors").Ok?
            && LoadExtraProcessors(v, posts, processor, "post_processors").Ok?
            ==> r == Err(AttributeError("run"))
  {
    match LoadProcessor(v, facets, processor)
    case Err(e) => Err(e)
    case Ok(loaded) =>
      match LoadExtraProcessors(v, pres, processor, "pre_processors")
      case Err(e) => Err(e)
      case Ok(preList) =>
        match LoadExtraProcessors(v, posts, processor, "post_processors")
        case Err(e) => Err(e)
        case Ok(postList) =>
          match loaded
          case None => Err(AttributeError("run"))
          case Some(p) => NestUnderOutputKey(plugin.outputKey(p), plugin.run(p, preList, postList))
  }

  /** Whether a backend with namespace `backend` takes output for `namespace`:
      a backend without a namespace takes everything. */
  predicate Accepts(backend: Option<string>, namespace: Option<string>) {
    backend == None || backend == Some("") || backend == namespace
  }

  /** The positions from `from` on of the backends that receive the output,
      in backend order. */
  function RouteFrom(backends: seq<Option<string>>, namespace: Option<string>, from: nat): (r: seq<nat>)
    requires from <= |backends|
    decreases |backends| - from
    ensures forall j :: 0 <= j < |r| ==> from <= r[j] < |backends| && Accepts(backends[r[j]], namespace)
    ensures forall i :: from <= i < |backends| && Accepts(backends[i], namespace) ==> i in r
    ensures forall j, k :: 0 <= j < k < |r| ==> r[j] < r[k]
  {
    if from == |backends| then []
    else
      var rest := RouteFrom(backends, namespace, from + 1);
      if Accepts(backends[from], namespace) then [from] + rest else rest
  }

  /** The positions of the backends that receive the output, in backend order. */
  function Route(backends: seq<Option<string>>, namespace: Option<string>): (r: seq<nat>)
    ensures forall j :: 0 <= j < |r| ==> r[j] < |backends| && Accepts(backends[r[j]], namespace)
    ensures forall i :: 0 <= i < |backends| && Accepts(backends[i], namespace) ==> i in r
    ensures forall j, k :: 0 <= j < k < |r| ==> r[j] < r[k]
  {
    RouteFrom(backends, namespace, 0)
  }

  /** One `export` call: the backend's position, the data and the keyword
      arguments it receives. */
  datatype Export = Export(backend: nat, data: Body, kwargs: map<string, Value>)

  /** `BaseGenerator.output(data, namespace, **kwargs)`: the data and keyword
      arguments go, unchanged, to exactly the accepting backends, in order.
      `BaseExtractor.output` is the same without keyword arguments. */
  function Output(backends: seq<Option<string>>, data: Body, namespace: Option<string>, kwargs: map<string, Value>): (r: seq<Export>)
    ensures |r| == |Route(backends, namespace)|
    ensures forall j :: 0 <= j < |r| ==> r[j].backend < |backends| && r[j].data == data && r[j].kwargs == kwargs && Accepts(backends[r[j].backend], namespace)
    ensures forall i :: 0 <= i < |backends| ==> (Accepts(backends[i], namespace) <==> exists j :: 0 <= j < |r| && r[j].backend == i)
  {
    var route := Route(backends, namespace);
    var r := seq(|route|, j requires 0 <= j < |route| => Export(route[j], data, kwargs));
    assert forall i :: 0 <= i < |backends| && Accepts(backends[i], namespace) ==> exists j :: 0 <= j < |r| && r[j].backend == i by {
      forall i | 0 <= i < |backends| && Accepts(backends[i], namespace)
        ensures exists j :: 0 <= j < |r| && r[j].backend == i
      {
        var j :| 0 <= j < |route| && route[j] == i;
        assert r[j].backend == i;
      }
    }
    r
  }
}
