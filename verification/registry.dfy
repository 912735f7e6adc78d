/** The plugin registry of asset_scanner (asset_scanner/core/handler_picker.py)
    and the loading of a processor's extra pre- and post-processors
    (`_load_extra_processors`, identical in asset_scanner/core/extractor.py and
    asset_scanner/core/generator.py).

    Entry-point discovery is not modelled: the entry points registered under
    a key are given as a list of (name, factory) pairs in discovery order,
    and a factory stands for loading the plugin class and calling it with
    keyword arguments. */
module Registry {
  import opened Wrappers
  import opened Values

  /** A plugin class: called with keyword arguments, it builds a plugin or raises. */
  type Factory<P> = map<string, Value> -> Outcome<P>

  datatype Picker<P> = Picker(handlers: map<string, Factory<P>>)

  /** The handlers map built from the entry points, one assignment per entry point. */
  function Register<P>(entryPoints: seq<(string, Factory<P>)>): (r: map<string, Factory<P>>)
    decreases |entryPoints|
    ensures r.Keys == Names(entryPoints)
  {
    if |entryPoints| == 0 then map[]
    else
      var init := entryPoints[..|entryPoints| - 1];
      var last := entryPoints[|entryPoints| - 1];
      NamesSnoc(entryPoints);
      Register(init)[last.0 := last.1]
  }

  /** The names of the entry points. */
  function Names<P>(entryPoints: seq<(string, Factory<P>)>): set<string> {
    set i | 0 <= i < |entryPoints| :: entryPoints[i].0
  }

  /** The names of the entry points but the last, and the last one's name. */
  lemma NamesSnoc<P>(entryPoints: seq<(string, Factory<P>)>)
    requires entryPoints != []
    ensures Names(entryPoints) == Names(entryPoints[..|entryPoints| - 1]) + {entryPoints[|entryPoints| - 1].0}
  {
    var n := |entryPoints| - 1;
    forall k | k in Names(entryPoints) ensures k in Names(entryPoints[..n]) + {entryPoints[n].0} {
      var i :| 0 <= i < |entryPoints| && entryPoints[i].0 == k;
      if i < n { assert entryPoints[..n][i] == entryPoints[i]; }
    }
    forall k | k in Names(entryPoints[..n]) ensures k in Names(entryPoints) {
      var i :| 0 <= i < n && entryPoints[..n][i].0 == k;
      assert entryPoints[i] == entryPoints[..n][i];
    }
  }

  /** `HandlerPicker(entry_point_key)`: a missing or empty key raises
      ValueError. */
  function NewPicker<P>(key: Option<string>, entryPoints: seq<(string, Factory<P>)>): (r: Outcome<Picker<P>>)
    ensures r.Err? <==> key == None || key == Some("")
    ensures r.Err? ==> r.error.ValueError?
    ensures r.Ok? ==> r.value.handlers == Register(entryPoints)
  {
    if key == None || key == Some("") then Err(ValueError("No entry point specified"))
    else Ok(Picker(Register(entryPoints)))
  }

  /** One handler per name, and it is the last entry point with that name:
      a later entry point replaces an earlier one of the same name. */
  lemma {:induction false} RegisterLastWins<P>(entryPoints: seq<(string, Factory<P>)>, i: nat)
    requires i < |entryPoints|
    requires forall j :: i < j < |entryPoints| ==> entryPoints[j].0 != entryPoints[i].0
    ensures Register(entryPoints)[entryPoints[i].0] == entryPoints[i].1
    decreases |entryPoints|
  {
    var n := |entryPoints|;
    var init := entryPoints[..n - 1];
    var last := entryPoints[n - 1];
    assert Register(entryPoints) == Register(init)[last.0 := last.1];
    if i < n - 1 {
      assert init[i] == entryPoints[i];
      forall j | i < j < |init| ensures init[j].0 != init[i].0 {
        assert init[j] == entryPoints[j];
      }
      RegisterLastWins(init, i);
    }
  }

  /** `get_processor(name, **kwargs)`. `Corrected` returns None for an
      unknown name, as the `return` after the log call intends. As written, the unknown-name branch
      calls `LOGGER.error`, but `LOGGER` is not defined in handler_picker.py, so
      it raises NameError before reaching `return`. */
  function GetProcessor<P>(v: Variant, p: Picker<P>, name: string, kwargs: map<string, Value>): (r: Outcome<Option<P>>)
    ensures name in p.handlers ==> r == (match p.handlers[name](kwargs)
                                         case Ok(x) => Ok(Some(x))
                                         case Err(e) => Err(e))
    ensures name !in p.handlers && v.AsWritten? ==> r == Err(NameError("LOGGER"))
    ensures name !in p.handlers && v.Corrected? ==> r == Ok(None)
  {
    if name !in p.handlers then
      if v.AsWritten? then Err(NameError("LOGGER")) else Ok(None)
    else
      match p.handlers[name](kwargs)
      case Ok(x) => Ok(Some(x))
      case Err(e) => Err(e)
  }

  /** The entries a `for` loop over a configured value visits: a list's
      elements; an empty string or dict has none; anything else either is not
      iterable or yields strings or keys, on which `["name"]` raises TypeError. */
  function Entries(v: Value): Outcome<seq<Value>> {
    match v
    case List(xs) => Ok(xs)
    case Str(s) => if s == "" then Ok([]) else Err(TypeError("string indices must be integers"))
    case Dict(m) => if m == map[] then Ok([]) else Err(TypeError("string indices must be integers"))
    case _ => Err(TypeError("object is not iterable"))
  }

  /** The keyword arguments a processor configuration passes, `inputs`
      defaulting to `{}`. */
  function InputsOf(conf: map<string, Value>): Value {
    if "inputs" in conf then conf["inputs"] else Dict(map[])
  }

  /** Whether keyword arguments name a parameter that
      `_get_processor(self, name, group, **kwargs)` already binds
      positionally, which Python rejects with TypeError. */
  predicate BindsParameter(inputs: map<string, Value>) {
    "self" in inputs || "name" in inputs || "group" in inputs
  }

  /** Loading one configured extra processor: `name` is required, `inputs`
      defaults to `{}` and must be a mapping that does not rebind a parameter
      of `_get_processor`. */
  function LoadOne<P>(v: Variant, p: Picker<P>, conf: Value): (r: Outcome<Option<P>>)
    ensures r.Ok? ==> conf.Dict? && "name" in conf.fields
    ensures r.Ok? ==> InputsOf(conf.fields).Dict? && !BindsParameter(InputsOf(conf.fields).fields)
    ensures conf.Dict? && "name" in conf.fields && InputsOf(conf.fields).Dict? && BindsParameter(InputsOf(conf.fields).fields)
            ==> r.Err? && r.error.TypeError?
    ensures r.Ok? && r.value.Some? ==> conf.fields["name"].Str? && conf.fields["name"].s in p.handlers
  {
    if !conf.Dict? then Err(TypeError("not subscriptable"))
    else if "name" !in conf.fields then Err(KeyError("name"))
    else
      var inputs := InputsOf(conf.fields);
      var name := conf.fields["name"];
      if !inputs.Dict? then Err(TypeError("argument after ** must be a mapping"))
      else if BindsParameter(inputs.fields) then Err(TypeError("got multiple values for an argument"))
      else if name.List? || name.Dict? then Err(TypeError("unhashable type"))
      else if !name.Str? then (if v.AsWritten? then Err(NameError("LOGGER")) else Ok(None))
      else GetProcessor(v, p, name.s, inputs.fields)
  }

  /** The loop over the configured entries, keeping what loads: it fails
      exactly when some entry fails to load, and what it keeps was loaded
      from some entry. */
  function LoadAll<P>(v: Variant, p: Picker<P>, confs: seq<Value>): (r: Outcome<seq<P>>)
    decreases |confs|
    ensures r.Ok? <==> forall i :: 0 <= i < |confs| ==> LoadOne(v, p, confs[i]).Ok?
    ensures r.Ok? ==> |r.value| <= |confs|
    ensures r.Ok? ==> forall j :: 0 <= j < |r.value| ==>
                        exists i :: 0 <= i < |confs| && LoadOne(v, p, confs[i]) == Ok(Some(r.value[j]))
  {
    if |confs| == 0 then Ok([])
    else match LoadOne(v, p, confs[0])
      case Err(e) => Err(e)
      case Ok(one) =>
        match LoadAll(v, p, confs[1..])
        case Err(e) =>
          assert exists i :: 1 <= i < |confs| && !LoadOne(v, p, confs[i]).Ok? by {
            var k :| 0 <= k < |confs[1..]| && !LoadOne(v, p, confs[1..][k]).Ok?;
            assert confs[1..][k] == confs[k + 1];
          }
          Err(e)
        case Ok(rest) =>
          assert forall i :: 1 <= i < |confs| ==> confs[i] == confs[1..][i - 1];
          Ok((if one.Some? then [one.value] else []) + rest)
  }

  /** The entries' load outcomes, when every entry loads. */
  function Outcomes<P>(v: Variant, p: Picker<P>, confs: seq<Value>): (r: seq<Option<P>>)
    requires forall i :: 0 <= i < |confs| ==> LoadOne(v, p, confs[i]).Ok?
    ensures |r| == |confs| && forall i :: 0 <= i < |confs| ==> r[i] == LoadOne(v, p, confs[i]).value
  {
    seq(|confs|, i requires 0 <= i < |confs| && LoadOne(v, p, confs[i]).Ok? => LoadOne(v, p, confs[i]).value)
  }

  /** The present values of a sequence of options, in order. */
  function Kept<P>(xs: seq<Option<P>>): (r: seq<P>)
    ensures |r| <= |xs|
    ensures (forall i :: 0 <= i < |xs| ==> xs[i].Some?) ==> |r| == |xs| && forall i :: 0 <= i < |xs| ==> r[i] == xs[i].value
  {
    if |xs| == 0 then []
    else (if xs[0].Some? then [xs[0].value] else []) + Kept(xs[1..])
  }

  /** When every entry loads, the loop keeps exactly the processors that
      loaded, in entry order, and drops the entries that gave None. */
  lemma {:induction false} LoadAllKeepsLoaded<P>(v: Variant, p: Picker<P>, confs: seq<Value>)
    requires forall i :: 0 <= i < |confs| ==> LoadOne(v, p, confs[i]).Ok?
    ensures LoadAll(v, p, confs) == Ok(Kept(Outcomes(v, p, confs)))
    decreases |confs|
  {
    if |confs| > 0 {
      assert forall i :: 0 <= i < |confs[1..]| ==> confs[1..][i] == confs[i + 1];
      LoadAllKeepsLoaded(v, p, confs[1..]);
      assert Outcomes(v, p, confs)[1..] == Outcomes(v, p, confs[1..]);
    }
  }

  /** `_load_extra_processors(processor, key)`: the processors listed under
      `key` (none when absent), loaded in order, with failed lookups dropped;
      a listed value that is not a list of configurations raises TypeError. */
  function LoadExtraProcessors<P>(v: Variant, p: Picker<P>, processor: map<string, Value>, key: string): (r: Outcome<seq<P>>)
    ensures key !in processor ==> r == Ok([])
    ensures key in processor && Entries(processor[key]).Err? ==> r.Err? && r.error.TypeError?
    ensures key in processor && Entries(processor[key]).Ok? ==> r == LoadAll(v, p, Entries(processor[key]).value)
    ensures key in processor && processor[key].List?
            && (forall i :: 0 <= i < |processor[key].items| ==> LoadOne(v, p, processor[key].items[i]).Ok?)
            ==> r == Ok(Kept(Outcomes(v, p, processor[key].items)))
    ensures r.Ok? && key in processor && processor[key].List? ==> |r.value| <= |processor[key].items|
  {
    var listed := if key in processor then processor[key] else List([]);
    match Entries(listed)
    case Err(e) => Err(e)
    case Ok(confs) =>
      if forall i :: 0 <= i < |confs| ==> LoadOne(v, p, confs[i]).Ok? then
        LoadAllKeepsLoaded(v, p, confs);
        LoadAll(v, p, confs)
      else LoadAll(v, p, confs)
  }

  /** The names configured in a list of extra processors. */
  predicate AllRegistered<P>(p: Picker<P>, confs: seq<Value>) {
    forall i :: 0 <= i < |confs| ==>
      confs[i].Dict? && "name" in confs[i].fields
      && confs[i].fields["name"].Str? && confs[i].fields["name"].s in p.handlers
  }

  /** As written, loading succeeds only when every name is registered, and
      then nothing is dropped: one processor per entry, in order. The corrected
      loader agrees with it whenever it succeeds. */
  lemma {:induction false} LoadAllAsWritten<P>(p: Picker<P>, confs: seq<Value>)
    requires LoadAll(AsWritten, p, confs).Ok?
    ensures AllRegistered(p, confs)
    ensures |LoadAll(AsWritten, p, confs).value| == |confs|
    ensures LoadAll(Corrected, p, confs) == LoadAll(AsWritten, p, confs)
    decreases |confs|
  {
    if |confs| > 0 {
      LoadAllAsWritten(p, confs[1..]);
      assert forall i :: 1 <= i < |confs| ==> confs[i] == confs[1..][i - 1];
    }
  }

  /** The corrected loader skips an unregistered name instead of raising. */
  lemma UnregisteredNameSkipped<P>(p: Picker<P>, n: string)
    requires n !in p.handlers
    ensures LoadAll(AsWritten, p, [Dict(map["name" := Str(n)])]) == Err(NameError("LOGGER"))
    ensures LoadAll(Corrected, p, [Dict(map["name" := Str(n)])]) == Ok([])
  {
  }
}
