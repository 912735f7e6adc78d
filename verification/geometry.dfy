/** The geometry extraction methods of stac_generator
    (stac_generator/plugins/extraction_methods/geometry_*.py, stac_bbox.py,
    geometry_to_bbox.py): GeoJSON geometries built from coordinate keys, and
    bounding boxes read from keys or computed from a geometry. A KeyError
    while reading the keys is caught and leaves the body unchanged; any other
    failure propagates. */
module Geometry {
  import opened Wrappers
  import opened Values

  /** Applying `f` to each element in order; the first failure is raised. */
  function Each<A>(xs: seq<A>, f: A -> Outcome<Value>): (r: Outcome<seq<Value>>)
    ensures r.Ok? <==> forall i :: 0 <= i < |xs| ==> f(xs[i]).Ok?
    ensures r.Ok? ==> |r.value| == |xs| && forall i :: 0 <= i < |xs| ==> f(xs[i]) == Ok(r.value[i])
    ensures r.Err? ==> exists m :: 0 <= m < |xs| && f(xs[m]).Err? && r == Err(f(xs[m]).error)
                                   && forall i :: 0 <= i < m ==> f(xs[i]).Ok?
    decreases |xs|
  {
    if xs == [] then Ok([])
    else
      match f(xs[0])
      case Err(e) => Err(e)
      case Ok(v) =>
        match Each(xs[1..], f)
        case Err(e) =>
          var m :| 0 <= m < |xs[1..]| && f(xs[1..][m]).Err? && e == f(xs[1..][m]).error
                   && forall i :: 0 <= i < m ==> f(xs[1..][i]).Ok?;
          assert forall i :: 0 <= i < m + 1 ==> f(xs[i]).Ok? by {
            forall i | 0 <= i < m + 1 ensures f(xs[i]).Ok? {
              if i > 0 { assert xs[i] == xs[1..][i - 1]; }
            }
          }
          assert xs[m + 1] == xs[1..][m];
          Err(e)
        case Ok(vs) =>
          assert forall i :: 1 <= i < |xs| ==> xs[i] == xs[1..][i - 1];
          Ok([v] + vs)
  }

  /** `float(body[k])`. */
  function FloatAt(fx: Foreign, body: Body, k: string): (r: Outcome<Value>)
    ensures k !in body ==> r == Err(KeyError(k))
    ensures k in body ==> r == PyFloat(body[k], fx)
    ensures k in body && (body[k].Null? || body[k].List? || body[k].Dict?) ==> r.Err? && r.error.TypeError?
    ensures r.Ok? ==> r.value.Float? && fx.toFloat(body[k]) == Some(r.value.r)
  {
    if k in body then PyFloat(body[k], fx) else Err(KeyError(k))
  }

  /** `[float(body[keys[0]]), float(body[keys[1]])]`, with IndexError for a
      missing key name. */
  function Position(fx: Foreign, body: Body, keys: seq<string>): (r: Outcome<Value>)
    ensures |keys| >= 2 && FloatAt(fx, body, keys[0]).Ok? && FloatAt(fx, body, keys[1]).Ok? ==>
      r == Ok(List([FloatAt(fx, body, keys[0]).value, FloatAt(fx, body, keys[1]).value]))
    ensures r.Ok? ==> |keys| >= 2 && FloatAt(fx, body, keys[0]).Ok? && FloatAt(fx, body, keys[1]).Ok?
    ensures |keys| == 0 ==> r == Err(IndexError)
    ensures |keys| > 0 && FloatAt(fx, body, keys[0]).Err? ==> r == FloatAt(fx, body, keys[0])
  {
    if |keys| == 0 then Err(IndexError)
    else
      match FloatAt(fx, body, keys[0])
      case Err(e) => Err(e)
      case Ok(x) =>
        if |keys| == 1 then Err(IndexError)
        else
          match FloatAt(fx, body, keys[1])
          case Err(e) => Err(e)
          case Ok(y) => Ok(List([x, y]))
  }

  /** A GeoJSON geometry object. */
  function GeoJson(kind: string, coordinates: Value): Value {
    Dict(map["type" := Str(kind), "coordinates" := coordinates])
  }

  /** The `except KeyError` around a geometry step: a KeyError leaves the body
      as it was. */
  function CatchKeyError(o: Outcome<Body>, body: Body): (r: Outcome<Body>)
    ensures o.Err? && o.error.KeyError? ==> r == Ok(body)
    ensures !(o.Err? && o.error.KeyError?) ==> r == o
  {
    if o.Err? && o.error.KeyError? then Ok(body) else o
  }

  /** `GeometryPointExtract.run` (and the point post-processors on a
      non-empty body). */
  function PointRun(fx: Foreign, body: Body, keys: seq<string>): (r: Outcome<Body>)
    ensures Position(fx, body, keys).Ok? ==> r == Ok(body["geometry" := GeoJson("Point", Position(fx, body, keys).value)])
    ensures Position(fx, body, keys).Err? && Position(fx, body, keys).error.KeyError? ==> r == Ok(body)
    ensures r.Err? <==> Position(fx, body, keys).Err? && !Position(fx, body, keys).error.KeyError?
  {
    CatchKeyError(
      match Position(fx, body, keys)
      case Err(e) => Err(e)
      case Ok(p) => Ok(body["geometry" := GeoJson("Point", p)]),
      body)
  }

  /** One position per key pair, in order. */
  function Positions(fx: Foreign, body: Body, pairs: seq<seq<string>>): (r: Outcome<seq<Value>>)
    ensures r.Ok? <==> forall i :: 0 <= i < |pairs| ==> Position(fx, body, pairs[i]).Ok?
    ensures r.Ok? ==> |r.value| == |pairs| && forall i :: 0 <= i < |pairs| ==> Position(fx, body, pairs[i]) == Ok(r.value[i])
  {
    Each(pairs, pair => Position(fx, body, pair))
  }

  /** `GeometryLineExtract.run` (and the line post-processors): the positions
      of every key pair as a `"Line"`. */
  function LineRun(fx: Foreign, body: Body, pairs: seq<seq<string>>): (r: Outcome<Body>)
    ensures Positions(fx, body, pairs).Ok? ==> r == Ok(body["geometry" := GeoJson("Line", List(Positions(fx, body, pairs).value))])
    ensures Positions(fx, body, pairs).Err? && Positions(fx, body, pairs).error.KeyError? ==> r == Ok(body)
    ensures r.Ok? ==> r.value == body || (r.value.Keys == body.Keys + {"geometry"} && forall k | k in body && k != "geometry" :: r.value[k] == body[k])
  {
    CatchKeyError(
      match Positions(fx, body, pairs)
      case Err(e) => Err(e)
      case Ok(ps) => Ok(body["geometry" := GeoJson("Line", List(ps))]),
      body)
  }

  /** A ring closed by repeating its first position when the last differs. */
  function Close(ps: seq<Value>): (r: seq<Value>)
    requires |ps| > 0
    ensures |r| == if ps[0] == ps[|ps| - 1] then |ps| else |ps| + 1
    ensures r[0] == ps[0] && r[|r| - 1] == ps[0]
    ensures r[..|ps|] == ps
  {
    if ps[0] != ps[|ps| - 1] then ps + [ps[0]] else ps
  }

  /** Closing a closed ring changes nothing. */
  lemma CloseIdempotent(ps: seq<Value>)
    requires |ps| > 0
    ensures Close(Close(ps)) == Close(ps)
  {
  }

  /** Where a polygon's positions come from: a body key holding them, or
      coordinate key pairs. */
  datatype PolygonSource = FromTerm(term: string) | FromKeys(pairs: seq<seq<string>>) | NoSource

  /** `GeometryPolygonExtract.run`: a list read from `coordinates_term`, or
      built from `coordinate_keys`, closed and stored as a `"Polygon"`. A list
      read from `coordinates_term` is closed in place, so that key holds the
      closed ring afterwards as well. An
      empty list fails at `coordinates[0]`; a dict fails there with a caught
      KeyError; a string is kept when its first and last characters agree. */
  function PolygonRun(fx: Foreign, body: Body, source: PolygonSource): (r: Outcome<Body>)
    ensures source.FromTerm? && source.term !in body ==> r == Ok(body)
    ensures source.FromTerm? && source.term in body && body[source.term].List? && body[source.term].items != [] ==>
      var ring := List(Close(body[source.term].items));
      r == Ok(body[source.term := ring]["geometry" := GeoJson("Polygon", ring)])
    ensures source.FromKeys? && Positions(fx, body, source.pairs).Ok? && Positions(fx, body, source.pairs).value != [] ==>
      r == Ok(body["geometry" := GeoJson("Polygon", List(Close(Positions(fx, body, source.pairs).value)))])
    ensures source.NoSource? ==> r == Err(IndexError)
    ensures r.Ok? && r.value != body ==> "geometry" in r.value && r.value["geometry"].Dict?
  {
    match source
    case NoSource => Err(IndexError)
    case FromTerm(t) =>
      if t !in body then Ok(body)
      else
        (match body[t]
         case List(items) =>
           if items == [] then Err(IndexError)
           else Ok(body[t := List(Close(items))]["geometry" := GeoJson("Polygon", List(Close(items)))])
         case Dict(_) => Ok(body)
         case Str(s) =>
           if s == "" then Err(IndexError)
           else if s[0] != s[|s| - 1] then Err(AttributeError("append"))
           else Ok(body["geometry" := GeoJson("Polygon", Str(s))])
         case _ => Err(TypeError("object is not subscriptable")))
    case FromKeys(pairs) =>
      match Positions(fx, body, pairs)
      case Err(e) => CatchKeyError(Err(e), body)
      case Ok(ps) => if ps == [] then Err(IndexError) else Ok(body["geometry" := GeoJson("Polygon", List(Close(ps)))])
  }

  /** A built polygon's ring starts and ends at the same position. */
  lemma PolygonClosed(fx: Foreign, body: Body, source: PolygonSource)
    requires PolygonRun(fx, body, source).Ok?
    requires "geometry" !in body
    ensures var r := PolygonRun(fx, body, source).value;
      "geometry" in r ==>
        var g := r["geometry"];
        g.Dict? && "coordinates" in g.fields
        && (g.fields["coordinates"].List? ==>
              var ring := g.fields["coordinates"].items;
              |ring| > 0 && ring[0] == ring[|ring| - 1])
  {
    var r := PolygonRun(fx, body, source).value;
    if "geometry" in r {
      match source
      case FromTerm(t) =>
        assert t in body;
        if body[t].List? {
          assert r["geometry"] == GeoJson("Polygon", List(Close(body[t].items)));
        }
      case FromKeys(pairs) =>
        var ps := Positions(fx, body, pairs).value;
        assert r["geometry"] == GeoJson("Polygon", List(Close(ps)));
      case NoSource =>
    }
  }

  // ---------------------------------------------------------------- stac_bbox

  /** `body[keys[i]]` for the first `n` key names, in order. */
  function LookupN(body: Body, keys: seq<string>, n: nat): (r: Outcome<seq<Value>>)
    ensures r.Ok? <==> |keys| >= n && forall i :: 0 <= i < n ==> keys[i] in body
    ensures r.Ok? ==> |r.value| == n && forall i :: 0 <= i < n ==> r.value[i] == body[keys[i]]
    ensures r.Err? ==> r.error == IndexError || r.error.KeyError?
    ensures |keys| < n && (forall i :: 0 <= i < |keys| ==> keys[i] in body) ==> r == Err(IndexError)
  {
    if n == 0 then Ok([])
    else
      match LookupN(body, keys, n - 1)
      case Err(e) => Err(e)
      case Ok(vs) =>
        if |keys| < n then Err(IndexError)
        else if keys[n - 1] !in body then Err(KeyError(keys[n - 1]))
        else Ok(vs + [body[keys[n - 1]]])
  }

  /** `float(v) if v is not None else v`. */
  function FloatOrNone(fx: Foreign, v: Value): (r: Outcome<Value>)
    ensures v == Null ==> r == Ok(Null)
    ensures v != Null ==> r == PyFloat(v, fx)
    ensures v.List? || v.Dict? ==> r.Err? && r.error.TypeError?
  {
    if v == Null then Ok(Null) else PyFloat(v, fx)
  }

  /** `StacBboxExtract.run`: the four values named by `coordinate_keys`, each
      converted to float unless None, as `[west, south, east, north]` under
      `output_term`; a missing value leaves the body unchanged. */
  function StacBboxRun(fx: Foreign, body: Body, keys: seq<string>, outputTerm: string): (r: Outcome<Body>)
    ensures LookupN(body, keys, 4).Err? && LookupN(body, keys, 4).error.KeyError? ==> r == Ok(body)
    ensures |keys| < 4 && (forall i :: 0 <= i < |keys| ==> keys[i] in body) ==> r == Err(IndexError)
    ensures r.Ok? && r.value != body ==>
      |keys| >= 4 && (forall i :: 0 <= i < 4 ==> keys[i] in body)
      && outputTerm in r.value && r.value == body[outputTerm := r.value[outputTerm]]
    ensures |keys| >= 4 && (forall i :: 0 <= i < 4 ==> keys[i] in body && FloatOrNone(fx, body[keys[i]]).Ok?) ==>
      r.Ok? && outputTerm in r.value && r.value[outputTerm].List? && |r.value[outputTerm].items| == 4
      && (forall i :: 0 <= i < 4 ==> Ok(r.value[outputTerm].items[i]) == FloatOrNone(fx, body[keys[i]]))
  {
    match LookupN(body, keys, 4)
    case Err(e) => CatchKeyError(Err(e), body)
    case Ok(vs) =>
      match Each(vs, v => FloatOrNone(fx, v))
      case Err(e) => Err(e)
      case Ok(fs) => Ok(body[outputTerm := List(fs)])
  }

  // ---------------------------------------------------------------- geometry_to_bbox

  predicate Numeric(v: Value) {
    v.Int? || v.Float?
  }

  /** The number a numeric value stands for; Python compares ints and floats
      by value. */
  function Real(v: Value): real
    requires Numeric(v)
  {
    if v.Int? then v.i as real else v.r
  }

  /** `body[input_term]["coordinates"][0]`: the first ring (or the line) of a
      geometry, subscripted as Python does, so a string gives its first
      character and a dict a KeyError. */
  function RingOf(body: Body, inputTerm: string): (r: Outcome<Value>)
    ensures inputTerm !in body ==> r == Err(KeyError(inputTerm))
    ensures inputTerm in body && !body[inputTerm].Dict? ==> r.Err? && r.error.TypeError?
    ensures inputTerm in body && body[inputTerm].Dict? && "coordinates" !in body[inputTerm].fields ==>
      r == Err(KeyError("coordinates"))
    ensures inputTerm in body && body[inputTerm].Dict? && "coordinates" in body[inputTerm].fields ==>
      r == Index(body[inputTerm].fields["coordinates"], 0)
    ensures r.Ok? && inputTerm in body && body[inputTerm].fields["coordinates"].List? ==>
      body[inputTerm].fields["coordinates"].items[0] == r.value
  {
    if inputTerm !in body then Err(KeyError(inputTerm))
    else match body[inputTerm]
      case Dict(g) =>
        if "coordinates" !in g then Err(KeyError("coordinates"))
        else Index(g["coordinates"], 0)
      case _ => Err(TypeError("indices must be integers"))
  }

  /** `[coordinate[0], coordinate[1]]` of one position: the first two
      elements of a list, the first two characters of a string, KeyError for
      a dict. */
  function PairOf(c: Value): (r: Outcome<(Value, Value)>)
    ensures r.Ok? <==> (c.List? && |c.items| >= 2) || (c.Str? && |c.s| >= 2)
    ensures r.Ok? && c.List? ==> r.value == (c.items[0], c.items[1])
    ensures r.Ok? && c.Str? ==> r.value == (Str([c.s[0]]), Str([c.s[1]]))
    ensures c.Dict? ==> r == Err(KeyError("0"))
    ensures (c.List? || c.Str?) && r.Err? ==> r.error == IndexError
  {
    var x :- Index(c, 0);
    var y :- Index(c, 1);
    Ok((x, y))
  }

  /** The positions of a ring as numeric pairs, for the comparing loop. */
  function NumericPairs(ring: seq<Value>): (r: Outcome<seq<(Value, Value)>>)
    ensures r.Ok? ==>
      (|r.value| == |ring|
       && forall i :: 0 <= i < |ring| ==> PairOf(ring[i]) == Ok(r.value[i]) && Numeric(r.value[i].0) && Numeric(r.value[i].1))
    ensures r.Ok? <==> forall i :: 0 <= i < |ring| ==> PairOf(ring[i]).Ok? && Numeric(PairOf(ring[i]).value.0) && Numeric(PairOf(ring[i]).value.1)
    decreases |ring|
  {
    if ring == [] then Ok([])
    else
      match PairOf(ring[0])
      case Err(e) => Err(e)
      case Ok(p) =>
        if !(Numeric(p.0) && Numeric(p.1)) then Err(TypeError("'<' not supported between these types"))
        else
          match NumericPairs(ring[1..])
          case Err(e) => Err(e)
          case Ok(rest) =>
            assert forall i :: 1 <= i < |ring| ==> ring[i] == ring[1..][i - 1];
            Ok([p] + rest)
  }

  /** `b` is `[west, south, east, north]` of the positions: each bound is
      attained by some position and no position lies outside. */
  predicate IsExtent(ps: seq<(Value, Value)>, b: seq<Value>)
    requires forall i :: 0 <= i < |ps| ==> Numeric(ps[i].0) && Numeric(ps[i].1)
  {
    |b| == 4 && Numeric(b[0]) && Numeric(b[1]) && Numeric(b[2]) && Numeric(b[3])
    && (forall i :: 0 <= i < |ps| ==> Real(b[0]) <= Real(ps[i].0) <= Real(b[2]) && Real(b[1]) <= Real(ps[i].1) <= Real(b[3]))
    && (exists i :: 0 <= i < |ps| && ps[i].0 == b[0])
    && (exists i :: 0 <= i < |ps| && ps[i].1 == b[1])
    && (exists i :: 0 <= i < |ps| && ps[i].0 == b[2])
    && (exists i :: 0 <= i < |ps| && ps[i].1 == b[3])
  }

  /** The comparing loop: the box starts at the first position and grows to
      take in every position. */
  method Extent(ps: seq<(Value, Value)>) returns (b: seq<Value>)
    requires |ps| > 0
    requires forall i :: 0 <= i < |ps| ==> Numeric(ps[i].0) && Numeric(ps[i].1)
    ensures IsExtent(ps, b)
  {
    var west, south, east, north := ps[0].0, ps[0].1, ps[0].0, ps[0].1;
    ghost var wi, si, ei, ni := 0, 0, 0, 0;
    var i := 0;
    while i < |ps|
      invariant 0 <= i <= |ps|
      invariant 0 <= wi < |ps| && ps[wi].0 == west
      invariant 0 <= si < |ps| && ps[si].1 == south
      invariant 0 <= ei < |ps| && ps[ei].0 == east
      invariant 0 <= ni < |ps| && ps[ni].1 == north
      invariant Real(west) <= Real(east) && Real(south) <= Real(north)
      invariant forall k :: 0 <= k < i ==> Real(west) <= Real(ps[k].0) <= Real(east) && Real(south) <= Real(ps[k].1) <= Real(north)
    {
      var (x, y) := ps[i];
      if Real(x) < Real(west) {
        west, wi := x, i;
      } else if Real(x) > Real(east) {
        east, ei := x, i;
      }
      if Real(y) < Real(south) {
        south, si := y, i;
      } else if Real(y) > Real(north) {
        north, ni := y, i;
      }
      i := i + 1;
    }
    b := [west, south, east, north];
  }

  /** `coordinates[0]` of the ring: its first position. */
  function FirstOf(ring: Outcome<Value>): Outcome<Value> {
    match ring
    case Err(e) => Err(e)
    case Ok(c) => Index(c, 0)
  }

  /** The pair of the first position: the box a non-comparing run writes. */
  function FirstPair(ring: Outcome<Value>): Outcome<(Value, Value)> {
    match FirstOf(ring)
    case Err(e) => Err(e)
    case Ok(p) => PairOf(p)
  }

  /** The pairs the comparing loop visits: `for coordinate in coordinates`. */
  function RingPairs(ring: Outcome<Value>): Outcome<seq<(Value, Value)>> {
    match ring
    case Err(e) => Err(e)
    case Ok(c) =>
      match Items(c)
      case Err(e) => Err(e)
      case Ok(ps) => NumericPairs(ps)
  }

  /** `GeometryToBboxExtract.run`: for a `"polygon"` or `"line"` the extent
      of the first ring, otherwise the first position repeated, under
      `output_term`. */
  method GeometryToBboxRun(body: Body, inputTerm: string, outputTerm: string, kind: string) returns (r: Outcome<Body>)
    ensures FirstPair(RingOf(body, inputTerm)).Err? ==> r == Err(FirstPair(RingOf(body, inputTerm)).error)
    ensures FirstPair(RingOf(body, inputTerm)).Ok? && kind != "polygon" && kind != "line" ==>
      var (x, y) := FirstPair(RingOf(body, inputTerm)).value;
      r == Ok(body[outputTerm := List([x, y, x, y])])
    ensures (kind == "polygon" || kind == "line") && FirstPair(RingOf(body, inputTerm)).Ok? ==>
      (r.Ok? <==> RingPairs(RingOf(body, inputTerm)).Ok?)
    ensures (kind == "polygon" || kind == "line") && r.Ok? ==>
      RingPairs(RingOf(body, inputTerm)).Ok?
      && outputTerm in r.value && r.value == body[outputTerm := r.value[outputTerm]]
      && r.value[outputTerm].List? && IsExtent(RingPairs(RingOf(body, inputTerm)).value, r.value[outputTerm].items)
  {
    var ring := RingOf(body, inputTerm);
    var first := FirstPair(ring);
    if first.Err? {
      return Err(first.error);
    }
    if kind == "polygon" || kind == "line" {
      var pairs := RingPairs(ring);
      if pairs.Err? {
        return Err(pairs.error);
      }
      assert pairs.value != [] by {
        var c := ring.value;
        assert Index(c, 0).Ok?;
        assert c.List? || c.Str?;
      }
      var b := Extent(pairs.value);
      r := Ok(body[outputTerm := List(b)]);
    } else {
      var (x, y) := first.value;
      r := Ok(body[outputTerm := List([x, y, x, y])]);
    }
  }
}
