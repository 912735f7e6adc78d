/** How a plugin's constructor turns its keyword arguments into instance
    attributes: the base classes of extraction methods, processors and
    mappings (stac_generator/core/extraction_method.py, processor.py,
    mapping.py) apply a default configuration first and the specific keyword
    arguments second, so the specific value wins; the output-key mixin of
    asset_scanner fills in `output_key`. Attributes are modelled as a map from
    name to value. */
module Config {
  import opened Wrappers
  import opened Values

  type Attrs = map<string, Value>

  /** `_set_attrs(conf)`: every entry of `conf` becomes an attribute, replacing
      an attribute of the same name; `conf.items()` on anything but a dict raises. */
  function SetAttrs(attrs: Attrs, conf: Value): (r: Outcome<Attrs>)
    ensures r.Ok? <==> conf.Dict?
    ensures r.Ok? ==> r.value.Keys == attrs.Keys + conf.fields.Keys
    ensures r.Ok? ==> forall k :: k in conf.fields ==> r.value[k] == conf.fields[k]
    ensures r.Ok? ==> forall k :: k in attrs && k !in conf.fields ==> r.value[k] == attrs[k]
  {
    if conf.Dict? then Ok(attrs + conf.fields) else Err(AttributeError("items"))
  }

  /** `if not hasattr(self, name): setattr(self, name, d)`. */
  function DefaultAttr(attrs: Attrs, name: string, d: Value): (r: Attrs)
    ensures r.Keys == attrs.Keys + {name}
    ensures name in attrs ==> r == attrs
    ensures name !in attrs ==> r[name] == d && forall k :: k in attrs ==> r[k] == attrs[k]
  {
    if name in attrs then attrs else attrs[name := d]
  }

  /** The entries of `default_conf` when the keyword arguments carry one, else none. */
  function DefaultConf(kwargs: Attrs): Value {
    if "default_conf" in kwargs then kwargs["default_conf"] else Dict(map[])
  }

  /** `BaseExtractionMethod.__init__`: `default_conf` first, then the keyword
      arguments (including `default_conf` itself; `_set_attrs(kwargs)` is the
      map override `defaults + kwargs`), then `exists_key` defaults
      to `"$"`. */
  function ExtractionMethodAttrs(kwargs: Attrs): (r: Outcome<Attrs>)
    ensures r.Ok? <==> DefaultConf(kwargs).Dict?
    ensures r.Ok? ==> r.value.Keys == kwargs.Keys + DefaultConf(kwargs).fields.Keys + {"exists_key"}
    ensures r.Ok? ==> forall k :: k in kwargs ==> r.value[k] == kwargs[k]
    ensures r.Ok? ==> forall k :: k in DefaultConf(kwargs).fields && k !in kwargs ==>
      r.value[k] == DefaultConf(kwargs).fields[k]
    ensures r.Ok? && "exists_key" !in kwargs && "exists_key" !in DefaultConf(kwargs).fields ==>
      r.value["exists_key"] == Str("$")
  {
    match SetAttrs(map[], DefaultConf(kwargs))
    case Err(e) => Err(e)
    case Ok(defaults) => Ok(DefaultAttr(defaults + kwargs, "exists_key", Str("$")))
  }

  /** `BaseProcessor.__init__`: `kwargs["conf"]` is required and applied first;
      the keyword arguments, `conf` among them, override it. */
  function ProcessorAttrs(kwargs: Attrs): (r: Outcome<Attrs>)
    ensures "conf" !in kwargs ==> r == Err(KeyError("conf"))
    ensures r.Ok? <==> "conf" in kwargs && kwargs["conf"].Dict?
    ensures r.Ok? ==> r.value.Keys == kwargs.Keys + kwargs["conf"].fields.Keys
    ensures r.Ok? ==> forall k :: k in kwargs ==> r.value[k] == kwargs[k]
    ensures r.Ok? ==> forall k :: k in kwargs["conf"].fields && k !in kwargs ==>
      r.value[k] == kwargs["conf"].fields[k]
  {
    if "conf" !in kwargs then Err(KeyError("conf"))
    else
      match SetAttrs(map[], kwargs["conf"])
      case Err(e) => Err(e)
      case Ok(defaults) => Ok(defaults + kwargs)
  }

  /** `BaseMapping.__init__`: an optional `default_conf` first, then the
      keyword arguments. */
  function MappingAttrs(kwargs: Attrs): (r: Outcome<Attrs>)
    ensures "default_conf" !in kwargs ==> r == Ok(kwargs)
    ensures r.Ok? <==> DefaultConf(kwargs).Dict?
    ensures r.Ok? ==> r.value.Keys == kwargs.Keys + DefaultConf(kwargs).fields.Keys
    ensures r.Ok? ==> forall k :: k in kwargs ==> r.value[k] == kwargs[k]
    ensures r.Ok? ==> forall k :: k in DefaultConf(kwargs).fields && k !in kwargs ==>
      r.value[k] == DefaultConf(kwargs).fields[k]
  {
    match SetAttrs(map[], DefaultConf(kwargs))
    case Err(e) => Err(e)
    case Ok(defaults) =>
      assert "default_conf" !in kwargs ==> defaults + kwargs == kwargs;
      Ok(defaults + kwargs)
  }

  /** `PropertiesOutputKeyMixin.__init__`: an absent or None `output_key`
      becomes `"properties"`; any other value, `""` included, is kept, and the
      other keyword arguments are forwarded unchanged. */
  function OutputKeyDefault(kwargs: Attrs): (r: Attrs)
    ensures r.Keys == kwargs.Keys + {"output_key"}
    ensures forall k :: k in kwargs && k != "output_key" ==> r[k] == kwargs[k]
    ensures ("output_key" !in kwargs || kwargs["output_key"] == Null) ==> r["output_key"] == Str("properties")
    ensures "output_key" in kwargs && kwargs["output_key"] != Null ==> r["output_key"] == kwargs["output_key"]
  {
    if Get(kwargs, "output_key") == Null then kwargs["output_key" := Str("properties")] else kwargs
  }
}
