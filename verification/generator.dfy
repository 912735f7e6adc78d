/** The stac_generator pipeline runner (stac_generator/core/generator.py and
    stac_generator/core/input.py), with the filters of the input plugin bases
    of both harvesters.

    The plugins the runner drives are functions here. An extraction method
    or a mapping maps a body to the next body. An output sink records what it
    exported. stac_generator/core/handler_picker.py is not part of this model,
    so building an extraction method from its name and inputs is a parameter
    `pick`. */
module Generator {
  import opened Wrappers
  import opened Values
  import opened BulkOutput

  type Attrs = map<string, Value>

  /** A built extraction method's `run`. */
  type Method = Body -> Outcome<Body>

  // ---------------------------------------------------------------- filters

  /** `any(filter.run(x) for filter in filters)`. */
  function AnyFilter<X>(filters: seq<X -> bool>, x: X): (r: bool)
    decreases |filters|
    ensures r <==> exists i :: 0 <= i < |filters| && filters[i](x)
  {
    if |filters| == 0 then false
    else if filters[0](x) then true
    else
      var r := AnyFilter(filters[1..], x);
      assert forall i :: 1 <= i < |filters| ==> filters[i] == filters[1..][i - 1];
      r
  }

  /** `should_process(uri)` of `BaseInput` and of the stac_generator
      `BaseInputPlugin`: true without filters (None or none loaded), otherwise
      true iff at least one filter accepts. The docstring promises that all
      must pass; the code uses `any`. */
  function ShouldProcess<X>(filters: Option<seq<X -> bool>>, x: X): (r: bool)
    ensures filters == None || filters == Some([]) ==> r
    ensures filters.Some? && filters.value != [] ==> (r <==> exists i :: 0 <= i < |filters.value| && filters.value[i](x))
    ensures filters.Some? && (forall i :: 0 <= i < |filters.value| ==> !filters.value[i](x)) && filters.value != [] ==> !r
  {
    if filters.Some? && filters.value != [] then AnyFilter(filters.value, x) else true
  }

  /** The asset_scanner `BaseInputPlugin.should_process(filepath, source_media)`:
      each filter receives the same path and media. */
  function ShouldProcessMedia<M>(filters: Option<seq<(string, M) -> bool>>, filepath: string, media: M): (r: bool)
    ensures filters == None || filters == Some([]) ==> r
    ensures filters.Some? && filters.value != [] ==>
      (r <==> exists i :: 0 <= i < |filters.value| && filters.value[i](filepath, media))
  {
    if filters.Some? && filters.value != [] then
      var fs := seq(|filters.value|, i requires 0 <= i < |filters.value| => (x: (string, M)) => filters.value[i](x.0, x.1));
      var r := AnyFilter(fs, (filepath, media));
      assert forall i :: 0 <= i < |fs| ==> fs[i]((filepath, media)) == filters.value[i](filepath, media);
      r
    else true
  }

  /** The input constructors: filters are loaded only when a truthy `filters`
      entry is configured. */
  function InitFilters<F>(kwargs: Attrs, load: Attrs -> seq<F>): (r: Option<seq<F>>)
    ensures r.None? <==> !Truthy(Get(kwargs, "filters"))
    ensures r.Some? ==> r.value == load(kwargs)
  {
    if Truthy(Get(kwargs, "filters")) then Some(load(kwargs)) else None
  }

  // ------------------------------------------------------ extraction methods

  /** What `_load_extraction_method` builds, with the method's configuration
      entry as the call leaves it. */
  datatype Loaded = Loaded(run: Method, conf: Body)

  /** `dict.get(key, {})` on a value that must be a dict. */
  function GetDict(v: Value, key: Value): Outcome<Value> {
    if !v.Dict? then Err(AttributeError("get"))
    else if key.List? || key.Dict? then Err(TypeError("unhashable type"))
    else if key.Str? && key.s in v.fields then Ok(v.fields[key.s])
    else Ok(Dict(map[]))
  }

  /** `_load_extraction_method(extraction_method_conf, **kwargs)`: the method
      named by `method`, built from its `inputs` with `default_conf` set to the
      call's keyword arguments overridden by the generator configuration for
      that method. The `inputs` dict of the configuration entry is updated in
      place; a missing `inputs` is a fresh dict and leaves the entry alone. */
  function LoadExtractionMethod(conf: Body, methodConf: Body, kwargs: Attrs, pick: (Value, Attrs) -> Outcome<Method>): (r: Outcome<Loaded>)
    ensures "method" !in methodConf ==> r == Err(KeyError("method"))
    ensures r.Ok? ==> r.value.conf.Keys == methodConf.Keys
    ensures r.Ok? ==> forall k :: k in methodConf && k != "inputs" ==> r.value.conf[k] == methodConf[k]
    ensures r.Ok? && "inputs" in methodConf ==>
      methodConf["inputs"].Dict? && r.value.conf["inputs"].Dict?
      && r.value.conf["inputs"].fields.Keys == methodConf["inputs"].fields.Keys + {"default_conf"}
      && forall k :: k in methodConf["inputs"].fields && k != "default_conf" ==>
           r.value.conf["inputs"].fields[k] == methodConf["inputs"].fields[k]
  {
    if "method" !in methodConf then Err(KeyError("method"))
    else
      var name := methodConf["method"];
      var generatorConf := Get(conf, "extraction_methods");
      var generatorConf := if "extraction_methods" in conf then generatorConf else Dict(map[]);
      match GetDict(generatorConf, name)
      case Err(e) => Err(e)
      case Ok(defaultConf) =>
        var inputs := if "inputs" in methodConf then methodConf["inputs"] else Dict(map[]);
        if !inputs.Dict? then Err(TypeError("item assignment"))
        else if !defaultConf.Dict? then Err(TypeError("unsupported operand type for |"))
        else
          var inputs' := inputs.fields["default_conf" := Dict(kwargs + defaultConf.fields)];
          match pick(name, inputs')
          case Err(e) => Err(e)
          case Ok(m) =>
            Ok(Loaded(m, if "inputs" in methodConf then methodConf["inputs" := Dict(inputs')] else methodConf))
  }

  /** The `default_conf` handed to the method: a key of the generator
      configuration for the method wins over a call keyword argument. */
  lemma DefaultConfPrecedence(conf: Body, methodConf: Body, kwargs: Attrs, pick: (Value, Attrs) -> Outcome<Method>, k: string)
    requires "method" in methodConf && methodConf["method"].Str?
    requires "extraction_methods" in conf && conf["extraction_methods"].Dict?
    requires methodConf["method"].s in conf["extraction_methods"].fields
    requires conf["extraction_methods"].fields[methodConf["method"].s].Dict?
    requires "inputs" !in methodConf || methodConf["inputs"].Dict?
    ensures
      var g := conf["extraction_methods"].fields[methodConf["method"].s].fields;
      var inputs := if "inputs" in methodConf then methodConf["inputs"].fields else map[];
      var inputs' := inputs["default_conf" := Dict(kwargs + g)];
      (LoadExtractionMethod(conf, methodConf, kwargs, pick).Ok? <==> pick(methodConf["method"], inputs').Ok?)
      && (k in g ==> inputs'["default_conf"].fields[k] == g[k])
      && (k in kwargs && k !in g ==> inputs'["default_conf"].fields[k] == kwargs[k])
  {
  }

  /** `_run_extraction_method(body, conf, **kwargs)`: build the method, then
      return exactly its `run(body)`. */
  function RunExtractionMethod(conf: Body, body: Body, methodConf: Body, kwargs: Attrs, pick: (Value, Attrs) -> Outcome<Method>): (r: Outcome<(Body, Body)>)
    ensures r.Ok? <==> LoadExtractionMethod(conf, methodConf, kwargs, pick).Ok?
                       && LoadExtractionMethod(conf, methodConf, kwargs, pick).value.run(body).Ok?
    ensures r.Ok? ==> r.value.0 == LoadExtractionMethod(conf, methodConf, kwargs, pick).value.run(body).value
    ensures r.Ok? ==> r.value.1 == LoadExtractionMethod(conf, methodConf, kwargs, pick).value.conf
    ensures LoadExtractionMethod(conf, methodConf, kwargs, pick).Err? ==> r == Err(LoadExtractionMethod(conf, methodConf, kwargs, pick).error)
    ensures LoadExtractionMethod(conf, methodConf, kwargs, pick).Ok? && LoadExtractionMethod(conf, methodConf, kwargs, pick).value.run(body).Err?
            ==> r == Err(LoadExtractionMethod(conf, methodConf, kwargs, pick).value.run(body).error)
  {
    match LoadExtractionMethod(conf, methodConf, kwargs, pick)
    case Err(e) => Err(e)
    case Ok(l) =>
      match l.run(body)
      case Err(e) => Err(e)
      case Ok(b) => Ok((b, l.conf))
  }

  /** A loop that threads a body through a list of configuration entries,
      collecting each entry as the step leaves it. */
  function Thread(step: (Body, Body) -> Outcome<(Body, Body)>, body: Body, entries: seq<Body>): (r: Outcome<(Body, seq<Body>)>)
    decreases |entries|
    ensures r.Ok? ==> |r.value.1| == |entries|
  {
    if |entries| == 0 then Ok((body, []))
    else
      match step(body, entries[0])
      case Err(e) => Err(e)
      case Ok(one) =>
        match Thread(step, one.0, entries[1..])
        case Err(e) => Err(e)
        case Ok(rest) => Ok((rest.0, [one.1] + rest.1))
  }

  /** Threading through two lists one after the other is threading through
      their concatenation. */
  lemma {:induction false} ThreadAppend(step: (Body, Body) -> Outcome<(Body, Body)>, body: Body, m1: seq<Body>, m2: seq<Body>)
    requires Thread(step, body, m1).Ok?
    ensures Thread(step, body, m1 + m2) ==
      match Thread(step, Thread(step, body, m1).value.0, m2)
      case Err(e) => Err(e)
      case Ok(rest) => Ok((rest.0, Thread(step, body, m1).value.1 + rest.1))
    decreases |m1|
  {
    if |m1| == 0 {
      assert m1 + m2 == m2;
      var r := Thread(step, body, m2);
      if r.Ok? {
        assert [] + r.value.1 == r.value.1;
      }
    } else {
      var one := step(body, m1[0]).value;
      assert (m1 + m2)[0] == m1[0];
      assert (m1 + m2)[1..] == m1[1..] + m2;
      ThreadAppend(step, one.0, m1[1..], m2);
      var first := Thread(step, one.0, m1[1..]).value;
      var r2 := Thread(step, first.0, m2);
      if r2.Ok? {
        assert [one.1] + (first.1 + r2.value.1) == ([one.1] + first.1) + r2.value.1;
      }
    }
  }

  /** One step of `run_extraction_methods`. */
  function MethodStep(conf: Body, kwargs: Attrs, pick: (Value, Attrs) -> Outcome<Method>): (Body, Body) -> Outcome<(Body, Body)> {
    (body: Body, methodConf: Body) => RunExtractionMethod(conf, body, methodConf, kwargs, pick)
  }

  /** `run_extraction_methods(body, description, **kwargs)`: without an entry
      for this generator type the body comes back unchanged; otherwise each
      method receives the body the previous one returned. The updated method
      entries are returned alongside the body. */
  function RunExtractionMethods(conf: Body, body: Body, description: Option<seq<Body>>, kwargs: Attrs, pick: (Value, Attrs) -> Outcome<Method>): (r: Outcome<(Body, seq<Body>)>)
    ensures description.None? ==> r == Ok((body, []))
    ensures description == Some([]) ==> r == Ok((body, []))
    ensures description.Some? && r.Ok? ==> |r.value.1| == |description.value|
  {
    if description.None? then Ok((body, [])) else Thread(MethodStep(conf, kwargs, pick), body, description.value)
  }

  /** The methods run in configured order: a list of entries split in two
      runs as its first part followed by its second part on the result. */
  lemma RunExtractionMethodsAppend(conf: Body, body: Body, m1: seq<Body>, m2: seq<Body>, kwargs: Attrs, pick: (Value, Attrs) -> Outcome<Method>)
    requires RunExtractionMethods(conf, body, Some(m1), kwargs, pick).Ok?
    ensures RunExtractionMethods(conf, body, Some(m1 + m2), kwargs, pick) ==
      match RunExtractionMethods(conf, RunExtractionMethods(conf, body, Some(m1), kwargs, pick).value.0, Some(m2), kwargs, pick)
      case Err(e) => Err(e)
      case Ok(rest) => Ok((rest.0, RunExtractionMethods(conf, body, Some(m1), kwargs, pick).value.1 + rest.1))
  {
    ThreadAppend(MethodStep(conf, kwargs, pick), body, m1, m2);
  }

  /** Two methods run as the second applied to the first's result. */
  lemma TwoMethodsInOrder(conf: Body, body: Body, a: Body, b: Body, kwargs: Attrs, pick: (Value, Attrs) -> Outcome<Method>)
    requires RunExtractionMethod(conf, body, a, kwargs, pick).Ok?
    ensures RunExtractionMethods(conf, body, Some([a, b]), kwargs, pick) ==
      match RunExtractionMethod(conf, RunExtractionMethod(conf, body, a, kwargs, pick).value.0, b, kwargs, pick)
      case Err(e) => Err(e)
      case Ok(s) => Ok((s.0, [RunExtractionMethod(conf, body, a, kwargs, pick).value.1, s.1]))
  {
    var step := MethodStep(conf, kwargs, pick);
    assert step(body, a) == RunExtractionMethod(conf, body, a, kwargs, pick);
    var first := step(body, a).value;
    assert [a, b][1..] == [b];
    assert [b][1..] == [];
    assert Thread(step, first.0, []) == Ok((first.0, []));
    assert step(first.0, b) == RunExtractionMethod(conf, first.0, b, kwargs, pick);
    var second := step(first.0, b);
    if second.Ok? {
      assert Thread(step, second.value.0, [b][1..]) == Ok((second.value.0, []));
      assert Thread(step, first.0, [b]) == Ok((second.value.0, [second.value.1] + []));
      assert [first.1] + ([second.value.1] + []) == [first.1, second.value.1];
      assert Thread(step, body, [a, b]) == Ok((second.value.0, [first.1] + ([second.value.1] + [])));
    } else {
      assert Thread(step, first.0, [b]) == Err(second.error);
      assert Thread(step, body, [a, b]) == Err(second.error);
    }
  }

  // ---------------------------------------------------------------- mappings

  /** The TypeError a mapping's `run(body, recipe, **kwargs)` raises when
      `map` hands it three positional arguments. */
  const MapCallError: Error := TypeError("run() takes 3 positional arguments but 4 were given")

  /** `map(ids, body, description, **kwargs)`: every mapping declares
      `run(body, recipe, **kwargs)`, but `map` calls it with `ids` in front,
      so as written the first configured mapping raises TypeError. Corrected,
      each mapping, with the call's other arguments fixed, is applied to the
      previous mapping's output. */
  function Map(v: Variant, mappings: seq<Body -> Body>, body: Body): (r: Outcome<Body>)
    decreases |mappings|
    ensures |mappings| == 0 ==> r == Ok(body)
    ensures v.AsWritten? && |mappings| > 0 ==> r == Err(MapCallError)
    ensures v.Corrected? ==> r.Ok?
  {
    if |mappings| == 0 then Ok(body)
    else if v.AsWritten? then Err(MapCallError)
    else Map(v, mappings[1..], mappings[0](body))
  }

  /** One configured mapping already fails as written; corrected, it maps
      the body. */
  lemma OneMappingFails(m: Body -> Body, body: Body)
    ensures Map(AsWritten, [m], body) == Err(MapCallError)
    ensures Map(Corrected, [m], body) == Ok(m(body))
  {
    assert [m][1..] == [];
  }

  /** Corrected, the mappings run in configured order: a list split in two
      maps as the second part applied to the first part's output. */
  lemma {:induction false} MapAppend(m1: seq<Body -> Body>, m2: seq<Body -> Body>, body: Body)
    ensures Map(Corrected, m1 + m2, body) == Map(Corrected, m2, Map(Corrected, m1, body).value)
    decreases |m1|
  {
    if |m1| == 0 {
      assert m1 + m2 == m2;
    } else {
      assert (m1 + m2)[0] == m1[0];
      assert (m1 + m2)[1..] == m1[1..] + m2;
      MapAppend(m1[1..], m2, m1[0](body));
    }
  }

  /** Corrected, the last mapping in the list is applied last. */
  lemma MapLast(ms: seq<Body -> Body>, body: Body)
    requires |ms| > 0
    ensures Map(Corrected, ms, body) == Ok(ms[|ms| - 1](Map(Corrected, ms[..|ms| - 1], body).value))
  {
    assert ms == ms[..|ms| - 1] + [ms[|ms| - 1]];
    MapAppend(ms[..|ms| - 1], [ms[|ms| - 1]], body);
    OneMappingFails(ms[|ms| - 1], Map(Corrected, ms[..|ms| - 1], body).value);
  }

  // ----------------------------------------------------------------- outputs

  /** An output plugin and what it has exported so far: a plain output
      exports every record it runs on; a bulk output exports batches. */
  datatype Sink = Plain(log: seq<Body>) | Bulk(state: BaseBulkOutput, batches: seq<seq<Body>>)

  ghost predicate SinkValid(s: Sink) {
    s.Bulk? ==> Valid(s.state)
  }

  /** `output.run(data)` for one output. */
  function SinkRun(s: Sink, data: Body): (r: Outcome<Sink>)
    requires SinkValid(s)
    ensures r.Ok? ==> SinkValid(r.value) && r.value.Plain? == s.Plain?
    ensures s.Plain? ==> r == Ok(Plain(s.log + [data]))
  {
    match s
    case Plain(log) => Ok(Plain(log + [data]))
    case Bulk(b, bs) =>
      match RunRecord(b, data)
      case Err(e) => Err(e)
      case Ok(step) => Ok(Bulk(step.out, bs + Batches(step)))
  }

  /** Every output's `run(data)` on the same data, in order. */
  function RunSinks(sinks: seq<Sink>, data: Body): (r: Outcome<seq<Sink>>)
    requires forall i :: 0 <= i < |sinks| ==> SinkValid(sinks[i])
    decreases |sinks|
    ensures r.Ok? ==> |r.value| == |sinks|
    ensures r.Ok? ==> forall i :: 0 <= i < |sinks| ==> SinkRun(sinks[i], data) == Ok(r.value[i])
    ensures r.Ok? <==> forall i :: 0 <= i < |sinks| ==> SinkRun(sinks[i], data).Ok?
  {
    if |sinks| == 0 then Ok([])
    else
      match SinkRun(sinks[0], data)
      case Err(e) => Err(e)
      case Ok(s) =>
        var rest := RunSinks(sinks[1..], data);
        assert forall i :: 1 <= i < |sinks| ==> sinks[i] == sinks[1..][i - 1];
        match rest
        case Err(e) => Err(e)
        case Ok(ss) => Ok([s] + ss)
  }

  /** The TypeError an output's `run(data)` raises when handed keyword
      arguments. */
  const OutputCallError: Error := TypeError("run() got an unexpected keyword argument")

  /** `output(data, **kwargs)`: every output runs on the same data, in order.
      Output plugins declare `run(data)` only, so as written any keyword
      argument makes the first output raise TypeError. Corrected, the keyword
      arguments are not passed on. */
  function Output(v: Variant, sinks: seq<Sink>, data: Body, kwargs: Attrs): (r: Outcome<seq<Sink>>)
    requires forall i :: 0 <= i < |sinks| ==> SinkValid(sinks[i])
    ensures v.AsWritten? && kwargs != map[] && sinks != [] ==> r == Err(OutputCallError)
    ensures sinks == [] ==> r == Ok([])
    ensures r.Ok? ==> |r.value| == |sinks|
    ensures r.Ok? ==> forall i :: 0 <= i < |sinks| ==> SinkRun(sinks[i], data) == Ok(r.value[i])
    ensures v.Corrected? || kwargs == map[] ==> (r.Ok? <==> forall i :: 0 <= i < |sinks| ==> SinkRun(sinks[i], data).Ok?)
  {
    if v.AsWritten? && kwargs != map[] && sinks != [] then Err(OutputCallError)
    else RunSinks(sinks, data)
  }

  /** `finished()`: only the bulk outputs are flushed. */
  function Finish(s: Sink): (r: Sink)
    requires SinkValid(s)
    ensures SinkValid(r) && r.Plain? == s.Plain?
    ensures s.Plain? ==> r == s
    ensures s.Bulk? ==> r.state.cache.order == [] && |r.batches| == |s.batches| + 1
  {
    match s
    case Plain(_) => s
    case Bulk(b, bs) => var step := ClearCache(b); Bulk(step.out, bs + [step.batch.value])
  }

  function Finished(sinks: seq<Sink>): (r: seq<Sink>)
    requires forall i :: 0 <= i < |sinks| ==> SinkValid(sinks[i])
    ensures |r| == |sinks|
    ensures forall i :: 0 <= i < |sinks| ==> r[i] == Finish(sinks[i])
  {
    seq(|sinks|, i requires 0 <= i < |sinks| => Finish(sinks[i]))
  }

  /** The arguments `process(uri, **kwargs)` hands on to `_process`: a body
      and keyword arguments. */
  datatype Call = Call(body: Body, kwargs: Attrs)

  /** `process(uri, **kwargs)`: the body handed on holds the uri and nothing
      else; the keyword arguments are the caller's with `TYPE` set to the
      generator's type, whatever the caller gave for it. */
  function Process(uri: string, kwargs: Attrs, generatorType: string): (r: Call)
    ensures r.body.Keys == {"uri"} && r.body["uri"] == Str(uri)
    ensures r.kwargs.Keys == kwargs.Keys + {"TYPE"} && r.kwargs["TYPE"] == Str(generatorType)
    ensures forall k :: k in kwargs && k != "TYPE" ==> r.kwargs[k] == kwargs[k]
  {
    Call(map["uri" := Str(uri)], kwargs["TYPE" := Str(generatorType)])
  }

  /** Two calls hand on the same arguments exactly when they name the same
      uri and generator type and their keyword arguments differ at most in
      `TYPE`: the caller's own `TYPE` never reaches `_process`. */
  lemma ProcessSameCall(uri1: string, kw1: Attrs, t1: string, uri2: string, kw2: Attrs, t2: string)
    ensures Process(uri1, kw1, t1) == Process(uri2, kw2, t2)
            <==> uri1 == uri2 && t1 == t2 && kw1 - {"TYPE"} == kw2 - {"TYPE"}
  {
    var c1, c2 := Process(uri1, kw1, t1), Process(uri2, kw2, t2);
    if c1 == c2 {
      assert Str(uri1) == c1.body["uri"] == c2.body["uri"] == Str(uri2);
      assert Str(t1) == c1.kwargs["TYPE"] == c2.kwargs["TYPE"] == Str(t2);
      assert (kw1 - {"TYPE"}).Keys == (kw2 - {"TYPE"}).Keys;
    }
    if uri1 == uri2 && t1 == t2 && kw1 - {"TYPE"} == kw2 - {"TYPE"} {
      assert c1.kwargs.Keys == c2.kwargs.Keys by {
        forall k | k != "TYPE" ensures k in kw1 <==> k in kw2 {
          assert k in kw1 <==> k in kw1 - {"TYPE"};
          assert k in kw2 <==> k in kw2 - {"TYPE"};
        }
      }
      forall k | k in c1.kwargs ensures c1.kwargs[k] == c2.kwargs[k] {
        if k != "TYPE" { assert kw1[k] == (kw1 - {"TYPE"})[k] == (kw2 - {"TYPE"})[k] == kw2[k]; }
      }
    }
  }

  /** The records an input's `run` sends to `output`, one after another,
      each with the same keyword arguments. */
  function OutputAll(v: Variant, sinks: seq<Sink>, records: seq<Body>, kwargs: Attrs): (r: Outcome<seq<Sink>>)
    requires forall i :: 0 <= i < |sinks| ==> SinkValid(sinks[i])
    decreases |records|
    ensures r.Ok? ==> |r.value| == |sinks| && forall i :: 0 <= i < |r.value| ==> SinkValid(r.value[i])
  {
    if |records| == 0 then Ok(sinks)
    else
      match Output(v, sinks, records[0], kwargs)
      case Err(e) => Err(e)
      case Ok(next) => OutputAll(v, next, records[1..], kwargs)
  }

  /** `start(generator)`: the input runs, delivering its records, and then
      `finished` is called once. The collection generator calls `output(data)`
      with no keyword arguments; the item generator's `_process` always passes
      `description` and the `TYPE` that `process` sets. */
  function Start(v: Variant, sinks: seq<Sink>, records: seq<Body>, kwargs: Attrs): (r: Outcome<seq<Sink>>)
    requires forall i :: 0 <= i < |sinks| ==> SinkValid(sinks[i])
    ensures r.Ok? <==> OutputAll(v, sinks, records, kwargs).Ok?
    ensures r.Ok? ==> r.value == Finished(OutputAll(v, sinks, records, kwargs).value)
  {
    match OutputAll(v, sinks, records, kwargs)
    case Err(e) => Err(e)
    case Ok(ss) => Ok(Finished(ss))
  }

  /** Corrected, the keyword arguments make no difference: every record is
      output as by a keyword-free call. */
  lemma {:induction false} KeywordsIgnoredWhenCorrected(sinks: seq<Sink>, records: seq<Body>, kwargs: Attrs)
    requires forall i :: 0 <= i < |sinks| ==> SinkValid(sinks[i])
    ensures OutputAll(Corrected, sinks, records, kwargs) == OutputAll(AsWritten, sinks, records, map[])
    decreases |records|
  {
    if |records| > 0 {
      assert Output(Corrected, sinks, records[0], kwargs) == Output(AsWritten, sinks, records[0], map[]);
      match Output(Corrected, sinks, records[0], kwargs)
      case Err(_) =>
      case Ok(next) => KeywordsIgnoredWhenCorrected(next, records[1..], kwargs);
    }
  }

  /** As written, a run whose records reach `output` with keyword arguments
      exports nothing: the first record already fails at the first output.
      Corrected, it behaves as the keyword-free run. */
  lemma KeywordOutputFails(sinks: seq<Sink>, records: seq<Body>, kwargs: Attrs)
    requires forall i :: 0 <= i < |sinks| ==> SinkValid(sinks[i])
    requires sinks != [] && records != [] && kwargs != map[]
    ensures Start(AsWritten, sinks, records, kwargs) == Err(OutputCallError)
    ensures Start(Corrected, sinks, records, kwargs) == Start(AsWritten, sinks, records, map[])
  {
    KeywordsIgnoredWhenCorrected(sinks, records, kwargs);
  }

  /** One output on its own, fed every record. */
  function SinkRunAll(s: Sink, records: seq<Body>): (r: Outcome<Sink>)
    requires SinkValid(s)
    decreases |records|
    ensures r.Ok? ==> SinkValid(r.value) && r.value.Plain? == s.Plain?
  {
    if |records| == 0 then Ok(s)
    else
      match SinkRun(s, records[0])
      case Err(e) => Err(e)
      case Ok(s') => SinkRunAll(s', records[1..])
  }

  /** Feeding the records to all outputs, record by record, leaves each
      output as if it had been fed all records on its own. */
  lemma {:induction false} OutputAllPointwise(v: Variant, sinks: seq<Sink>, records: seq<Body>, kwargs: Attrs)
    requires forall i :: 0 <= i < |sinks| ==> SinkValid(sinks[i])
    requires OutputAll(v, sinks, records, kwargs).Ok?
    ensures forall i :: 0 <= i < |sinks| ==> SinkRunAll(sinks[i], records) == Ok(OutputAll(v, sinks, records, kwargs).value[i])
    decreases |records|
  {
    if |records| > 0 {
      var next := Output(v, sinks, records[0], kwargs).value;
      OutputAllPointwise(v, next, records[1..], kwargs);
    }
  }

  /** A plain output exports exactly the records, in order. */
  lemma {:induction false} PlainRunAll(log: seq<Body>, records: seq<Body>)
    ensures SinkRunAll(Plain(log), records) == Ok(Plain(log + records))
    decreases |records|
  {
    if |records| > 0 {
      PlainRunAll(log + [records[0]], records[1..]);
      assert (log + [records[0]]) + records[1..] == log + records;
    } else {
      assert log + records == log;
    }
  }

  lemma SinkRunAllCons(s: Sink, records: seq<Body>)
    requires SinkValid(s) && |records| > 0
    requires SinkRunAll(s, records).Ok?
    ensures SinkRun(s, records[0]).Ok?
    ensures SinkRunAll(s, records) == SinkRunAll(SinkRun(s, records[0]).value, records[1..])
  {
  }

  /** A bulk output fed all records is the bulk state machine's run. */
  lemma {:induction false} BulkRunAll(b: BaseBulkOutput, bs: seq<seq<Body>>, records: seq<Body>)
    requires Valid(b)
    requires SinkRunAll(Bulk(b, bs), records).Ok?
    ensures RunRecords(b, records).Ok?
    ensures SinkRunAll(Bulk(b, bs), records) == Ok(Bulk(RunRecords(b, records).value.0, bs + RunRecords(b, records).value.1))
    decreases |records|
  {
    if |records| == 0 {
      assert bs + [] == bs;
    } else {
      var r0 := RunRecord(b, records[0]);
      assert r0.Ok? by { SinkRunAllCons(Bulk(b, bs), records); }
      var step := r0.value;
      var s' := Bulk(step.out, bs + Batches(step));
      assert SinkRunAll(Bulk(b, bs), records) == SinkRunAll(s', records[1..]) by {
        SinkRunAllCons(Bulk(b, bs), records);
      }
      BulkRunAll(step.out, bs + Batches(step), records[1..]);
      var rest := RunRecords(step.out, records[1..]).value;
      assert RunRecords(b, records) == Ok((rest.0, Batches(step) + rest.1));
      AppendAssoc(bs, Batches(step), rest.1);
    }
  }

  /** An output that starts out empty: a plain one that has exported nothing,
      or a bulk one with an empty cache and no batches. */
  ghost predicate Fresh(s: Sink) {
    match s
    case Plain(log) => log == []
    case Bulk(b, bs) => Valid(b) && b.cache.order == [] && bs == []
  }

  /** End to end: after a successful `start`, a plain output has exported
      exactly the records in order, and a bulk output has an empty cache and
      has exported a record under every id it was given. As written, success
      needs keyword-free calls (see `KeywordOutputFails`). */
  lemma StartExportsEveryRecord(v: Variant, sinks: seq<Sink>, records: seq<Body>, kwargs: Attrs)
    requires forall i :: 0 <= i < |sinks| ==> SinkValid(sinks[i]) && Fresh(sinks[i])
    requires Start(v, sinks, records, kwargs).Ok?
    ensures forall i :: 0 <= i < |sinks| && sinks[i].Plain? ==> Start(v, sinks, records, kwargs).value[i] == Plain(records)
    ensures forall i :: 0 <= i < |sinks| && sinks[i].Bulk? ==>
      Start(v, sinks, records, kwargs).value[i].Bulk?
      && Start(v, sinks, records, kwargs).value[i].state.cache.order == []
      && Ids(records) <= Ids(Flatten(Start(v, sinks, records, kwargs).value[i].batches))
  {
    var mid := OutputAll(v, sinks, records, kwargs).value;
    OutputAllPointwise(v, sinks, records, kwargs);
    forall i | 0 <= i < |sinks|
      ensures sinks[i].Plain? ==> Start(v, sinks, records, kwargs).value[i] == Plain(records)
      ensures sinks[i].Bulk? ==>
        Start(v, sinks, records, kwargs).value[i].Bulk?
        && Start(v, sinks, records, kwargs).value[i].state.cache.order == []
        && Ids(records) <= Ids(Flatten(Start(v, sinks, records, kwargs).value[i].batches))
    {
      if sinks[i].Plain? {
        PlainRunAll([], records);
        assert [] + records == records;
      } else {
        var b := sinks[i].state;
        BulkRunAll(b, [], records);
        RunThenClearExportsEveryId(b, records);
        var res := RunRecords(b, records).value;
        assert mid[i] == Bulk(res.0, [] + res.1);
        assert [] + res.1 == res.1;
      }
    }
  }
}
