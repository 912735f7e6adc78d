/** The two mappings of stac_generator that turn a flat working body into
    its output layout: `STACMapping` (stac_generator/plugins/mappings/stac.py)
    builds a STAC Item or Collection, and `CEDAMapping`
    (stac_generator/plugins/mappings/ceda.py) the CEDA layout.

    Date parsing and formatting (`dateutil` then `strftime`) is a parameter
    `stamp`, returning None where dateutil raises; the clock reading of the
    CEDA layout is the parameter `now`. */
module Mappings {
  import opened Wrappers
  import opened Values

  /** `STACConf`: the root URL, the STAC version and the extensions every
      item declares. */
  datatype StacConf = StacConf(rootUrl: string, version: string, extensions: seq<Value>)

  type Stamp = Value -> Option<string>

  /** The body keys an Item takes out of the body; every other key becomes a
      property. */
  const ItemRouted: set<string> := {"stac_extensions", "id", "datetime", "start_datetime", "end_datetime",
                                    "bbox", "geometry", "assets", "member_of_recipes", "collection_id"}

  /** The body keys a Collection takes out of the body; every other key
      becomes a summary. */
  const CollectionRouted: set<string> := {"id", "description", "interval", "bbox", "license", "providers", "member_of_recipes"}

  /** A link object. */
  function Link(rel: string, mime: string, href: string): Value {
    Dict(map["rel" := Str(rel), "type" := Str(mime), "href" := Str(href)])
  }

  /** `datetime_field`: the value popped from `key`, parsed and printed as
      `%Y-%m-%dT%H:%M:%SZ`. */
  function DatetimeField(stamp: Stamp, v: Value): (r: Outcome<Value>)
    ensures r.Ok? <==> stamp(v).Some?
    ensures r.Ok? ==> r.value == Str(stamp(v).value)
  {
    match stamp(v)
    case Some(s) => Ok(Str(s))
    case None => Err(ValueError("Unknown string format"))
  }

  /** The three date properties of an item: `datetime` always (None when the
      body has none), the others only when present. */
  function DateProperties(stamp: Stamp, body: Body): (r: Outcome<Body>)
    ensures r.Ok? ==> "datetime" in r.value && ("datetime" !in body ==> r.value["datetime"] == Null)
    ensures r.Ok? ==> forall k :: k in r.value <==> k == "datetime" || (k in {"start_datetime", "end_datetime"} && k in body)
    ensures r.Ok? ==> forall k | k in r.value && k in body :: DatetimeField(stamp, body[k]) == Ok(r.value[k])
  {
    var dt := if "datetime" in body then DatetimeField(stamp, body["datetime"]) else Ok(Null);
    var start := if "start_datetime" in body then DatetimeField(stamp, body["start_datetime"]) else Ok(Null);
    var end := if "end_datetime" in body then DatetimeField(stamp, body["end_datetime"]) else Ok(Null);
    if dt.Err? then Err(dt.error)
    else if start.Err? then Err(start.error)
    else if end.Err? then Err(end.error)
    else
      Ok(map["datetime" := dt.value]
         + (if "start_datetime" in body then map["start_datetime" := start.value] else map[])
         + (if "end_datetime" in body then map["end_datetime" := end.value] else map[]))
  }

  /** `body.pop("collection_id")[0]`. */
  function FirstOf(v: Value): (r: Outcome<Value>)
    ensures v.List? && v.items != [] ==> r == Ok(v.items[0])
    ensures v.Str? && v.s != [] ==> r == Ok(Str([v.s[0]]))
    ensures r.Ok? ==> (v.List? && v.items != []) || (v.Str? && v.s != [])
  {
    match v
    case List(xs) => if xs == [] then Err(IndexError) else Ok(xs[0])
    case Str(s) => if s == [] then Err(IndexError) else Ok(Str([s[0]]))
    case Dict(_) => Err(KeyError("0"))
    case _ => Err(TypeError("object is not subscriptable"))
  }

  /** The body with the routed keys removed. */
  function Rest(body: Body, routed: set<string>): (r: Body)
    ensures r.Keys == body.Keys - routed
    ensures forall k | k in r :: r[k] == body[k]
  {
    map k | k in body.Keys - routed :: body[k]
  }

  /** The links of an item. The root link's href is the text
      `{self.conf.stac_root_url}/` itself, because that string is not an
      f-string. */
  function ItemLinks(conf: StacConf, fx: Foreign, collection: Value, id: Value): seq<Value> {
    var c := conf.rootUrl + "/collections/" + PyStr(collection, fx);
    [Link("self", "application/geo+json", c + "/items/" + PyStr(id, fx)),
     Link("parent", "application/json", c),
     Link("collection", "application/json", c),
     Link("root", "application/json", "{self.conf.stac_root_url}/")]
  }

  /** A STAC Item as `STACMapping.item` lays it out; `type` is always
      `"Feature"` and `bbox` and `member_of_recipes` are present only when the
      body had them. */
  datatype StacItem = StacItem(
    stacVersion: string, stacExtensions: seq<Value>, id: Value, geometry: Value, assets: Value,
    properties: Body, collection: Value, links: seq<Value>, bbox: Option<Value>, memberOfRecipes: Option<Value>)

  /** The value under `key` when the body has one. */
  function Lookup(body: Body, key: string): (r: Option<Value>)
    ensures r.Some? <==> key in body
    ensures r.Some? ==> r.value == body[key]
  {
    if key in body then Some(body[key]) else None
  }

  /** `STACMapping.item(body)`: `stac_extensions` and `id` are popped first, then
      the dates, then `collection_id`, whose absence surfaces as the KeyError of
      the `collection` link. */
  function Item(conf: StacConf, fx: Foreign, stamp: Stamp, body: Body): (r: Outcome<StacItem>)
    ensures r.Ok? ==> "id" in body && "collection_id" in body && r.value.id == body["id"]
    ensures "stac_extensions" in body && !body["stac_extensions"].List? ==> r.Err?
    ensures "stac_extensions" !in body || body["stac_extensions"].List? ==> ("id" !in body ==> r == Err(KeyError("id")))
    ensures r.Ok? ==> r.value.stacVersion == conf.version
    ensures r.Ok? ==> FirstOf(body["collection_id"]) == Ok(r.value.collection)
    ensures r.Ok? && "stac_extensions" !in body ==> r.value.stacExtensions == conf.extensions
    ensures r.Ok? && "stac_extensions" in body ==> r.value.stacExtensions == body["stac_extensions"].items + conf.extensions
    ensures r.Ok? ==> r.value.geometry == Get(body, "geometry")
    ensures r.Ok? ==> r.value.assets == (if "assets" in body then body["assets"] else Dict(map[]))
    ensures r.Ok? ==> r.value.bbox == Lookup(body, "bbox") && r.value.memberOfRecipes == Lookup(body, "member_of_recipes")
    ensures r.Ok? ==>
      (DateProperties(stamp, body).Ok? && r.value.properties == DateProperties(stamp, body).value + Rest(body, ItemRouted))
    ensures r.Ok? ==> r.value.links == ItemLinks(conf, fx, r.value.collection, body["id"])
  {
    var ext := if "stac_extensions" in body then body["stac_extensions"] else List([]);
    if !ext.List? then Err(TypeError("can only concatenate list to list"))
    else if "id" !in body then Err(KeyError("id"))
    else
      match DateProperties(stamp, body)
      case Err(e) => Err(e)
      case Ok(dates) =>
        var collection := if "collection_id" in body then FirstOf(body["collection_id"]) else Err(KeyError("collection"));
        if collection.Err? then Err(collection.error)
        else
          Ok(StacItem(
            conf.version, ext.items + conf.extensions, body["id"], Get(body, "geometry"),
            if "assets" in body then body["assets"] else Dict(map[]),
            dates + Rest(body, ItemRouted), collection.value, ItemLinks(conf, fx, collection.value, body["id"]),
            Lookup(body, "bbox"), Lookup(body, "member_of_recipes")))
  }

  /** Every body key of an item is routed to exactly one place: a key that is
      not routed is a property with its value unchanged, and a routed key is
      not a property unless it is one of the formatted dates. */
  lemma ItemPropertiesPartition(conf: StacConf, fx: Foreign, stamp: Stamp, body: Body, k: string)
    requires k in body
    ensures Item(conf, fx, stamp, body).Ok? ==>
      var props := Item(conf, fx, stamp, body).value.properties;
      (k !in ItemRouted ==> k in props && props[k] == body[k])
      && (k in ItemRouted && k !in {"datetime", "start_datetime", "end_datetime"} ==> k !in props)
  {
  }

  /** The links of a collection. The `items` link is written with the
      `cmip6` collection path whatever the collection. */
  function CollectionLinks(conf: StacConf, fx: Foreign, id: Value): seq<Value> {
    var c := conf.rootUrl + "/collections/";
    [Link("self", "application/geo+json", c + PyStr(id, fx)),
     Link("parent", "application/json", conf.rootUrl + "/"),
     Link("queryables", "application/json", c + PyStr(id, fx) + "/queryables"),
     Link("items", "application/geo+json", c + "cmip6/" + PyStr(id, fx)),
     Link("root", "application/json", "{self.conf.stac_root_url}/")]
  }

  /** A STAC Collection as `STACMapping.collection` lays it out; `type` is
      always `"Collection"` and `assets` always empty. */
  datatype StacCollection = StacCollection(
    stacVersion: string, stacExtensions: seq<Value>, id: Value, description: Option<Value>,
    interval: Value, bbox: Value, summaries: Body, providers: Value, license: Value,
    links: seq<Value>, memberOfRecipes: Option<Value>)

  /** `STACMapping.collection(body)`: the extent, license and providers come
      from the body when present; what is left becomes `summaries`. */
  function Collection(conf: StacConf, fx: Foreign, body: Body): (r: Outcome<StacCollection>)
    ensures r.Ok? <==> "id" in body
    ensures r.Ok? ==> r.value.id == body["id"] && r.value.stacVersion == conf.version && r.value.stacExtensions == conf.extensions
    ensures r.Ok? ==> r.value.interval == Get(body, "interval") && r.value.bbox == Get(body, "bbox")
    ensures r.Ok? ==> r.value.license == (if "license" in body then body["license"] else Str(""))
    ensures r.Ok? ==> r.value.providers == (if "providers" in body then body["providers"] else List([]))
    ensures r.Ok? ==> r.value.description == Lookup(body, "description") && r.value.memberOfRecipes == Lookup(body, "member_of_recipes")
    ensures r.Ok? ==> r.value.summaries == Rest(body, CollectionRouted)
    ensures r.Ok? ==> r.value.links == CollectionLinks(conf, fx, body["id"])
  {
    if "id" !in body then Err(KeyError("id"))
    else
      Ok(StacCollection(
        conf.version, conf.extensions, body["id"], Lookup(body, "description"),
        Get(body, "interval"), Get(body, "bbox"), Rest(body, CollectionRouted),
        if "providers" in body then body["providers"] else List([]),
        if "license" in body then body["license"] else Str(""),
        CollectionLinks(conf, fx, body["id"]), Lookup(body, "member_of_recipes")))
  }

  /** Every body key of a collection is either taken by the collection or is
      a summary with its value unchanged, never both. */
  lemma CollectionSummariesPartition(conf: StacConf, fx: Foreign, body: Body, k: string)
    requires "id" in body
    requires k in body
    ensures var c := Collection(conf, fx, body).value;
      (k in c.summaries <==> k !in CollectionRouted) && (k in c.summaries ==> c.summaries[k] == body[k])
  {
  }

  /** What `STACMapping.run` returns. */
  datatype Mapped = ItemOut(item: StacItem) | CollectionOut(collection: StacCollection) | Unchanged(body: Body)

  /** The dispatch of `STACMapping.run` on a generator type value: "item"
      builds an item, "collection" a collection, and anything else leaves the
      body as it is. */
  function Dispatch(conf: StacConf, fx: Foreign, stamp: Stamp, body: Body, generatorType: Value): Outcome<Mapped> {
    if generatorType == Str("item") then
      (match Item(conf, fx, stamp, body) case Ok(i) => Ok(ItemOut(i)) case Err(e) => Err(e))
    else if generatorType == Str("collection") then
      (match Collection(conf, fx, body) case Ok(c) => Ok(CollectionOut(c)) case Err(e) => Err(e))
    else Ok(Unchanged(body))
  }

  /** `STACMapping.run(body, recipe, **kwargs)`: dispatch on the keyword
      argument `GENERATOR_TYPE`; any other type leaves the body as it is. */
  function StacRun(conf: StacConf, fx: Foreign, stamp: Stamp, body: Body, kwargs: map<string, Value>): (r: Outcome<Mapped>)
    ensures "GENERATOR_TYPE" !in kwargs ==> r == Err(KeyError("GENERATOR_TYPE"))
    ensures "GENERATOR_TYPE" in kwargs && kwargs["GENERATOR_TYPE"] == Str("item") ==>
      (r.Ok? <==> Item(conf, fx, stamp, body).Ok?) && (r.Ok? ==> r.value == ItemOut(Item(conf, fx, stamp, body).value))
    ensures "GENERATOR_TYPE" in kwargs && kwargs["GENERATOR_TYPE"] == Str("collection") ==>
      (r.Ok? <==> "id" in body) && (r.Ok? ==> r.value == CollectionOut(Collection(conf, fx, body).value))
    ensures "GENERATOR_TYPE" in kwargs && kwargs["GENERATOR_TYPE"] !in {Str("item"), Str("collection")} ==> r == Ok(Unchanged(body))
  {
    if "GENERATOR_TYPE" !in kwargs then Err(KeyError("GENERATOR_TYPE"))
    else Dispatch(conf, fx, stamp, body, kwargs["GENERATOR_TYPE"])
  }

  /** As written, the keyword arguments `process` hands on set `TYPE` and not
      `GENERATOR_TYPE`, so the mapping fails whatever the generator type is. */
  lemma ProcessedCallFails(conf: StacConf, fx: Foreign, stamp: Stamp, body: Body, kwargs: map<string, Value>, generatorType: string)
    requires "GENERATOR_TYPE" !in kwargs
    ensures StacRun(conf, fx, stamp, body, kwargs["TYPE" := Str(generatorType)]).Err?
  {
    assert "GENERATOR_TYPE" !in kwargs["TYPE" := Str(generatorType)];
  }

  /** `STACMapping.run` dispatching on the value of the `TYPE` that `process`
      sets, as `CEDAMapping.run` reads it. */
  function StacRunOnType(conf: StacConf, fx: Foreign, stamp: Stamp, body: Body, kwargs: map<string, Value>): (r: Outcome<Mapped>)
    ensures "TYPE" !in kwargs ==> r == Err(KeyError("TYPE"))
    ensures "TYPE" in kwargs && "GENERATOR_TYPE" in kwargs && kwargs["TYPE"] == kwargs["GENERATOR_TYPE"] ==>
      r == StacRun(conf, fx, stamp, body, kwargs)
  {
    if "TYPE" !in kwargs then Err(KeyError("TYPE"))
    else Dispatch(conf, fx, stamp, body, kwargs["TYPE"])
  }

  /** Corrected, a call `process` prepared for an item or collection generator
      reaches the item or collection mapping. */
  lemma ProcessedCallMapped(conf: StacConf, fx: Foreign, stamp: Stamp, body: Body, kwargs: map<string, Value>)
    ensures var r := StacRunOnType(conf, fx, stamp, body, kwargs["TYPE" := Str("item")]);
      (r.Ok? <==> Item(conf, fx, stamp, body).Ok?) && (r.Ok? ==> r.value == ItemOut(Item(conf, fx, stamp, body).value))
    ensures var r := StacRunOnType(conf, fx, stamp, body, kwargs["TYPE" := Str("collection")]);
      (r.Ok? <==> "id" in body) && (r.Ok? ==> r.value == CollectionOut(Collection(conf, fx, body).value))
  {
    var ki := kwargs["TYPE" := Str("item")];
    var kc := kwargs["TYPE" := Str("collection")];
    assert StacRunOnType(conf, fx, stamp, body, ki) == StacRun(conf, fx, stamp, body, ki["GENERATOR_TYPE" := Str("item")]);
    assert StacRunOnType(conf, fx, stamp, body, kc) == StacRun(conf, fx, stamp, body, kc["GENERATOR_TYPE" := Str("collection")]);
  }

  /** The keys `CEDAMapping.run` moves into `extent`. */
  const ExtentKeys: set<string> := {"datetime", "start_datetime", "end_datetime", "bbox", "geometry"}

  /** The CEDA layout: `{type}_id`, the `stac` block (with `status` always
      `"new"`), `extent` when there is one, and `properties`. */
  datatype CedaRecord = CedaRecord(idKey: string, id: Value, memberOfRecipes: Value, modTime: string, extent: Option<Body>, properties: Body)

  /** `CEDAMapping.run(body, recipe, **kwargs)` for a generator whose `TYPE`
      has the value `typeName`: the `{type}_id` and `member_of_recipes` keys are
      required, the extent keys move into `extent` (present only when one of
      them is), and the rest of the body becomes `properties`. */
  function CedaRun(typeName: string, now: string, body: Body): (r: Outcome<CedaRecord>)
    ensures r.Ok? <==> typeName + "_id" in body && "member_of_recipes" in body
    ensures typeName + "_id" !in body ==> r == Err(KeyError(typeName + "_id"))
    ensures r.Ok? ==> r.value.idKey == typeName + "_id" && r.value.id == body[typeName + "_id"]
    ensures r.Ok? ==> r.value.memberOfRecipes == body["member_of_recipes"] && r.value.modTime == now
    ensures r.Ok? ==> (r.value.extent.Some? <==> exists k :: k in ExtentKeys && k in body)
    ensures r.Ok? && r.value.extent.Some? ==>
      (r.value.extent.value.Keys == ExtentKeys * body.Keys && forall k | k in r.value.extent.value :: r.value.extent.value[k] == body[k])
    ensures r.Ok? ==> r.value.properties == Rest(body, {typeName + "_id", "member_of_recipes"} + ExtentKeys)
  {
    var idKey := typeName + "_id";
    if idKey !in body then Err(KeyError(idKey))
    else if "member_of_recipes" !in body then Err(KeyError("member_of_recipes"))
    else
      var extent := map k | k in ExtentKeys && k in body :: body[k];
      assert extent != map[] <==> exists k :: k in ExtentKeys && k in body by {
        if exists k :: k in ExtentKeys && k in body {
          var k :| k in ExtentKeys && k in body;
          assert k in extent;
        }
      }
      Ok(CedaRecord(idKey, body[idKey], body["member_of_recipes"], now,
                    if extent != map[] then Some(extent) else None,
                    Rest(body, {idKey, "member_of_recipes"} + ExtentKeys)))
  }

  /** In the CEDA layout no body key is lost or duplicated: each lands in
      exactly one of the id, `stac`, `extent` and `properties`. */
  lemma CedaKeysPartition(typeName: string, now: string, body: Body, k: string)
    requires CedaRun(typeName, now, body).Ok?
    requires k in body
    ensures var r := CedaRun(typeName, now, body).value;
      (k in ExtentKeys <==> (r.extent.Some? && k in r.extent.value))
      && ((k in ExtentKeys || k == typeName + "_id" || k == "member_of_recipes") <==> k !in r.properties)
  {
  }
}
