/** The post-processors of both harvesters
    (stac_generator/plugins/extraction_methods/postprocessors.py,
    the modules under stac_generator/plugins/postprocessors/ and
    asset_scanner/plugins/extraction_methods/postprocessors.py). Each acts
    only on a non-empty body; their `run` bodies share the extraction
    methods' logic, and the stac_generator plugins also predict, through
    `expected_terms`, which keys a run leaves behind. */
module Postprocessors {
  import opened Wrappers
  import opened Values
  import opened Dates
  import opened Extraction
  import opened Geometry

  // ---------------------------------------------------------------- iso date

  /** One date key of `ISODateProcessor.run`: a truthy string is parsed and
      replaced, or removed when no parser accepts it; a falsy or missing value
      is removed; a truthy non-string makes the parsers raise TypeError. */
  function IsoDateKey(fx: Foreign, body: Body, key: string, format: string): (r: Outcome<Body>)
    ensures !Truthy(Get(body, key)) ==> r == Ok(body - {key})
    ensures Truthy(Get(body, key)) && !body[key].Str? ==> r.Err?
    ensures Truthy(Get(body, key)) && body[key].Str? ==>
      var iso := IsoformatDate(fx, body[key].s, format).0;
      r == Ok(if iso.Some? && iso.value != "" then body[key := Str(iso.value)] else body - {key})
  {
    if !Truthy(Get(body, key)) then Ok(body - {key})
    else match body[key]
      case Str(s) =>
        var iso := IsoformatDate(fx, s, format).0;
        Ok(if iso.Some? && iso.value != "" then body[key := Str(iso.value)] else body - {key})
      case _ => Err(TypeError("Parser must be a string or character stream, not " + "non-string"))
  }

  /** `ISODateProcessor.run`: each date key in turn. Afterwards every date
      key left holds a non-empty string, and no other key changed. */
  function IsoDateRun(fx: Foreign, body: Body, dateKeys: seq<string>, format: string): (r: Outcome<Body>)
    ensures body == map[] ==> r == Ok(body)
    ensures r.Ok? ==> r.value.Keys <= body.Keys
    ensures r.Ok? && body != map[] ==> forall i :: 0 <= i < |dateKeys| && dateKeys[i] in r.value ==> r.value[dateKeys[i]].Str? && r.value[dateKeys[i]].s != ""
    ensures r.Ok? ==> forall k | k in body && k !in dateKeys :: k in r.value && r.value[k] == body[k]
  {
    if body == map[] then Ok(body) else IsoDateKeys(fx, body, dateKeys, format)
  }

  function IsoDateKeys(fx: Foreign, body: Body, dateKeys: seq<string>, format: string): (r: Outcome<Body>)
    ensures r.Ok? ==> r.value.Keys <= body.Keys
    ensures r.Ok? ==> forall i :: 0 <= i < |dateKeys| && dateKeys[i] in r.value ==> r.value[dateKeys[i]].Str? && r.value[dateKeys[i]].s != ""
    ensures r.Ok? ==> forall k | k in body && k !in dateKeys :: k in r.value && r.value[k] == body[k]
    decreases |dateKeys|
  {
    if dateKeys == [] then Ok(body)
    else
      var n := |dateKeys| - 1;
      match IsoDateKeys(fx, body, dateKeys[..n], format)
      case Err(e) => Err(e)
      case Ok(b) =>
        match IsoDateKey(fx, b, dateKeys[n], format)
        case Err(e) => Err(e)
        case Ok(b2) =>
          assert forall i :: 0 <= i < n ==> dateKeys[i] == dateKeys[..n][i];
          Ok(b2)
  }

  // ---------------------------------------------------------------- bbox

  /** `BBOXProcessor.run` of stac_generator: the four keys as the two-corner
      envelope `{"type": "envelope", "coordinates": [[k0, k1], [k2, k3]]}`
      under `bbox`; a missing key leaves the body unchanged. */
  function EnvelopeRun(fx: Foreign, body: Body, keys: seq<string>): (r: Outcome<Body>)
    ensures body == map[] ==> r == Ok(body)
    ensures body != map[] && |keys| >= 4 && (forall i :: 0 <= i < 4 ==> FloatAt(fx, body, keys[i]).Ok?) ==>
      r == Ok(body["bbox" := Dict(map["type" := Str("envelope"), "coordinates" :=
        List([List([FloatAt(fx, body, keys[0]).value, FloatAt(fx, body, keys[1]).value]),
              List([FloatAt(fx, body, keys[2]).value, FloatAt(fx, body, keys[3]).value])])])])
    ensures body != map[] && |keys| >= 4 && (forall i :: 0 <= i < 4 ==> keys[i] in body) ==>
      (r.Ok? <==> forall i :: 0 <= i < 4 ==> FloatAt(fx, body, keys[i]).Ok?)
    ensures r.Ok? ==> r.value == body || ("bbox" in r.value && r.value == body["bbox" := r.value["bbox"]])
  {
    if body == map[] then Ok(body)
    else if |keys| < 4 then
      (match Each(keys, k => FloatAt(fx, body, k))
       case Err(e) => CatchKeyError(Err(e), body)
       case Ok(_) => Err(IndexError))
    else
      match Each(keys[..4], k => FloatAt(fx, body, k))
      case Err(e) =>
        assert forall i :: 0 <= i < 4 ==> keys[..4][i] == keys[i];
        CatchKeyError(Err(e), body)
      case Ok(fs) =>
        assert forall i :: 0 <= i < 4 ==> keys[..4][i] == keys[i];
        Ok(body["bbox" := Dict(map["type" := Str("envelope"), "coordinates" := List([List([fs[0], fs[1]]), List([fs[2], fs[3]])])])])
  }

  /** What asset_scanner's `BBOXProcessor.run` returns: the floats of every
      key of `key_list`, as a list that replaces the body itself, or the body
      when a key is missing. */
  function ListBboxRun(fx: Foreign, body: Body, keys: seq<string>): (r: Outcome<Value>)
    ensures body == map[] ==> r == Ok(Dict(body))
    ensures body != map[] && (forall i :: 0 <= i < |keys| ==> FloatAt(fx, body, keys[i]).Ok?) ==>
      r.Ok? && r.value.List? && |r.value.items| == |keys|
      && forall i :: 0 <= i < |keys| ==> r.value.items[i] == FloatAt(fx, body, keys[i]).value
    ensures r.Ok? && r.value.Dict? ==> r.value == Dict(body)
  {
    if body == map[] then Ok(Dict(body))
    else
      match Each(keys, k => FloatAt(fx, body, k))
      case Err(e) => if e.KeyError? then Ok(Dict(body)) else Err(e)
      case Ok(fs) => Ok(List(fs))
  }

  // ---------------------------------------------------------------- geometry

  /** The polygon post-processors: the positions of the key pairs and then
      the first pair's position again, whether or not the ring was already
      closed. */
  function PolygonProcessorRun(fx: Foreign, body: Body, pairs: seq<seq<string>>): (r: Outcome<Body>)
    ensures body == map[] ==> r == Ok(body)
    ensures body != map[] && pairs != [] && Positions(fx, body, pairs).Ok? ==>
      var ps := Positions(fx, body, pairs).value;
      r == Ok(body["geometry" := GeoJson("Polygon", List(ps + [ps[0]]))])
    ensures body != map[] && pairs == [] ==> r == Err(IndexError)
  {
    if body == map[] then Ok(body)
    else
      match Positions(fx, body, pairs)
      case Err(e) => CatchKeyError(Err(e), body)
      case Ok(ps) =>
        if pairs == [] then Err(IndexError)
        else
          assert Position(fx, body, pairs[0]) == Ok(ps[0]);
          Ok(body["geometry" := GeoJson("Polygon", List(ps + [ps[0]]))])
  }

  /** The ring a polygon post-processor stores always ends where it starts,
      and has one more position than there are key pairs. */
  lemma PolygonProcessorClosed(fx: Foreign, body: Body, pairs: seq<seq<string>>)
    requires body != map[] && pairs != [] && Positions(fx, body, pairs).Ok?
    ensures var g := PolygonProcessorRun(fx, body, pairs).value["geometry"];
      g.Dict? && "coordinates" in g.fields && g.fields["coordinates"].List?
      && var ring := g.fields["coordinates"].items;
         |ring| == |pairs| + 1 && ring[0] == ring[|ring| - 1]
  {
  }

  /** The point, line, facet and string-join post-processors act on a
      non-empty body only. */
  function NonEmpty(body: Body, run: Outcome<Body>): (r: Outcome<Body>)
    ensures body == map[] ==> r == Ok(body)
    ensures body != map[] ==> r == run
  {
    if body == map[] then Ok(body) else run
  }

  // ---------------------------------------------------------------- expected terms

  /** `expected_terms` of `facet_map`: `term_map.get(item, item)`. Unlike
      `run`, it renames through an empty mapping too. */
  function ExpectedFacetMap(termMap: map<string, string>, terms: seq<string>): (r: seq<string>)
    ensures |r| == |terms|
    ensures forall i :: 0 <= i < |terms| ==> r[i] == if terms[i] in termMap then termMap[terms[i]] else terms[i]
  {
    seq(|terms|, i requires 0 <= i < |terms| => if terms[i] in termMap then termMap[terms[i]] else terms[i])
  }

  /** With no empty mapping, the predicted names are exactly the keys
      `facet_map` produces from a body whose keys are the terms. */
  lemma ExpectedFacetMapAgrees(body: Body, order: seq<string>, termMap: map<string, string>)
    requires Enumerates(order, body)
    requires forall k | k in termMap :: termMap[k] != ""
    ensures KeySet(ExpectedFacetMap(termMap, order)) == FacetMapRun(body, order, termMap).Keys
  {
    PredictedNames(body, order, termMap, FacetMapRun(body, order, termMap).Keys);
  }

  /** The predicted names are the renamed keys of the body. */
  lemma PredictedNames(body: Body, order: seq<string>, termMap: map<string, string>, out: set<string>)
    requires Enumerates(order, body)
    requires forall k | k in termMap :: termMap[k] != ""
    requires out == set k | k in body :: MapName(termMap, k)
    ensures KeySet(ExpectedFacetMap(termMap, order)) == out
  {
    var e := ExpectedFacetMap(termMap, order);
    forall k | k in KeySet(e) ensures k in out {
      var i :| 0 <= i < |e| && e[i] == k;
      assert MapName(termMap, order[i]) == k;
    }
    forall k | k in out ensures k in KeySet(e) {
      var b :| b in body && MapName(termMap, b) == k;
      var i :| 0 <= i < |order| && order[i] == b;
      assert e[i] == k;
    }
  }


  /** `expected_terms` of `facet_prefix`. As written the prediction joins
      prefix and term with `.`, while `run` writes `:`. */
  function ExpectedFacetPrefix(v: Variant, prefix: string, terms: seq<string>, termList: seq<string>): (r: seq<string>)
    ensures |r| == |termList|
    ensures forall i :: 0 <= i < |termList| && termList[i] !in terms ==> r[i] == termList[i]
    ensures forall i :: 0 <= i < |termList| && termList[i] in terms ==>
      r[i] == prefix + (if v.AsWritten? then "." else ":") + termList[i]
  {
    seq(|termList|, i requires 0 <= i < |termList| =>
      if termList[i] in terms then prefix + (if v.AsWritten? then "." else ":") + termList[i] else termList[i])
  }

  /** Corrected, the predicted names are exactly the keys `facet_prefix`
      produces from a body whose keys are the terms. */
  lemma ExpectedFacetPrefixAgrees(body: Body, order: seq<string>, prefix: string, terms: seq<string>)
    requires Enumerates(order, body)
    ensures KeySet(ExpectedFacetPrefix(Corrected, prefix, terms, order)) == FacetPrefixRun(body, order, prefix, terms).Keys
  {
    var e := ExpectedFacetPrefix(Corrected, prefix, terms, order);
    forall k | k in KeySet(e) ensures k in FacetPrefixRun(body, order, prefix, terms).Keys {
      var i :| 0 <= i < |e| && e[i] == k;
      assert PrefixName(prefix, terms, order[i]) == k;
    }
    forall k | k in FacetPrefixRun(body, order, prefix, terms).Keys ensures k in KeySet(e) {
      var b :| b in body && PrefixName(prefix, terms, b) == k;
      var i :| 0 <= i < |order| && order[i] == b;
      assert e[i] == k;
    }
  }

  /** As written, a prefixed term is predicted under a name `run` never
      writes: for the body `{"a": 1}` with prefix `p` and term `a`, `run`
      gives `p:a` and the prediction is `p.a`. */
  lemma ExpectedFacetPrefixMisses()
    ensures var body := map["a" := Int(1)];
      "p.a" in ExpectedFacetPrefix(AsWritten, "p", ["a"], ["a"])
      && "p.a" !in FacetPrefixRun(body, ["a"], "p", ["a"])
  {
    var body := map["a" := Int(1)];
    var e := ExpectedFacetPrefix(AsWritten, "p", ["a"], ["a"]);
    assert e[0] == "p.a";
    var r := FacetPrefixRun(body, ["a"], "p", ["a"]);
    assert "a" in ["a"];
    assert PrefixName("p", ["a"], "a") == "p:a";
    forall k | k in r ensures k == "p:a" {
      var b :| b in body && PrefixName("p", ["a"], b) == k;
    }
    assert "p:a"[1] != "p.a"[1];
  }

  /** `expected_terms` of the bbox, geometry and string-join plugins:
      `term_list.append(name)` returns None, so as written they predict
      nothing; corrected they predict the list with `name` added. */
  function ExpectedAppended(v: Variant, termList: seq<string>, name: string): (r: Option<seq<string>>)
    ensures v.AsWritten? ==> r.None?
    ensures v.Corrected? ==> r == Some(termList + [name])
  {
    if v.AsWritten? then None else Some(termList + [name])
  }

  /** Corrected, the bbox prediction names every key the envelope run
      leaves. */
  lemma ExpectedBboxAgrees(fx: Foreign, body: Body, order: seq<string>, keys: seq<string>)
    requires Enumerates(order, body) && body != map[]
    requires |keys| >= 4 && forall i :: 0 <= i < 4 ==> FloatAt(fx, body, keys[i]).Ok?
    ensures EnvelopeRun(fx, body, keys).Ok?
    ensures KeySet(ExpectedAppended(Corrected, order, "bbox").value) == EnvelopeRun(fx, body, keys).value.Keys
    ensures ExpectedAppended(AsWritten, order, "bbox").None?
  {
    var e := order + ["bbox"];
    assert KeySet(e) == KeySet(order) + {"bbox"} by {
      forall k | k in KeySet(e) ensures k in KeySet(order) + {"bbox"} {
        var i :| 0 <= i < |e| && e[i] == k;
        if i < |order| { assert order[i] == k; }
      }
      forall k | k in KeySet(order) ensures k in KeySet(e) {
        var i :| 0 <= i < |order| && order[i] == k;
        assert e[i] == k;
      }
      assert e[|order|] == "bbox";
    }
    assert KeySet(order) == body.Keys;
  }

  /** `list.remove(x)`: the first occurrence goes, and a missing `x` raises
      ValueError. */
  function RemoveFirst(xs: seq<string>, x: string): (r: Outcome<seq<string>>)
    ensures r.Ok? <==> x in xs
    ensures r.Ok? ==> |r.value| == |xs| - 1 && multiset(r.value) == multiset(xs) - multiset{x}
    decreases |xs|
  {
    if xs == [] then Err(ValueError("list.remove(x): x not in list"))
    else if xs[0] == x then
      assert xs == [xs[0]] + xs[1..];
      Ok(xs[1..])
    else
      match RemoveFirst(xs[1..], x)
      case Err(e) => Err(e)
      case Ok(rest) =>
        assert xs == [xs[0]] + xs[1..];
        Ok([xs[0]] + rest)
  }

  /** Removes each of `names` in turn. */
  function RemoveEach(xs: seq<string>, names: seq<string>): (r: Outcome<seq<string>>)
    ensures r.Ok? ==> |r.value| == |xs| - |names| && multiset(r.value) == multiset(xs) - multiset(names)
    ensures r.Ok? <==> multiset(names) <= multiset(xs)
    decreases |names|
  {
    if names == [] then Ok(xs)
    else
      match RemoveFirst(xs, names[0])
      case Err(e) =>
        assert names == [names[0]] + names[1..];
        assert names[0] in multiset(names);
        Err(e)
      case Ok(ys) =>
        assert names == [names[0]] + names[1..];
        assert multiset(names) == multiset{names[0]} + multiset(names[1..]);
        RemoveEach(ys, names[1..])
  }

  /** The six components, in the order `expected_terms` removes them. */
  const ComponentOrder: seq<string> := ["year", "month", "day", "hour", "minute", "second"]

  /** `expected_terms` of the date-combinator plugin: the output key is
      appended and, when destructive, the six components removed, each of
      which must then be present (ValueError otherwise). */
  function ExpectedDateTerms(termList: seq<string>, key: string, destructive: bool): (r: Outcome<seq<string>>)
    ensures !destructive ==> r == Ok(termList + [key])
    ensures destructive ==> (r.Ok? <==> multiset(ComponentOrder) <= multiset(termList + [key]))
    ensures destructive && r.Ok? ==>
      |r.value| == |termList| + 1 - 6 && multiset(r.value) == multiset(termList + [key]) - multiset(ComponentOrder)
  {
    if destructive then RemoveEach(termList + [key], ComponentOrder) else Ok(termList + [key])
  }

  /** A destructive prediction fails when the input terms lack a component:
      `["year", "month"]` has no `day`. */
  lemma ExpectedDateTermsNeedComponents()
    ensures ExpectedDateTerms(["year", "month"], "datetime", true).Err?
  {
    var xs := ["year", "month"] + ["datetime"];
    assert "day" !in multiset(xs);
    assert "day" in multiset(ComponentOrder);
  }
}
