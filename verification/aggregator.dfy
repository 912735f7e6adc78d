/** The collection summary of the Elasticsearch aggregator
    (asset_scanner/plugins/processors/elasticsearch_aggregator.py): the
    values of each facet, read through composite-aggregation paging, and the
    temporal extent. The search call is a parameter. */
module Aggregator {
  import opened Wrappers
  import opened Values
  import opened Paging

  /** One composite-aggregation response, as `get_page` reads it: None when
      `aggregations` is falsy, otherwise each bucket's `key[facet]` in order
      and the `after_key` (Null when absent). */
  datatype FacetAggregation = FacetAggregation(bucketKeys: seq<Value>, afterKey: Value)
  type FacetResponse = Option<FacetAggregation>

  /** `get_page` as a paging step. The request cursor is the `after` of the
      query, None for the first request; paging continues, with `after` set
      to the returned `after_key`, while that key is truthy. */
  function FacetPage(search: Option<Value> -> FacetResponse, after: Option<Value>): (p: Page<Option<Value>>)
    ensures search(after).None? ==> p == Page([], None)
    ensures search(after).Some? ==> p.items == search(after).value.bucketKeys
    ensures p.next.Some? <==> search(after).Some? && Truthy(search(after).value.afterKey)
    ensures p.next.Some? ==> p.next.value == Some(search(after).value.afterKey)
  {
    match search(after)
    case None => Page([], None)
    case Some(agg) => Page(agg.bucketKeys, if Truthy(agg.afterKey) then Some(Some(agg.afterKey)) else None)
  }

  /** `get_page` with the search fixed, as the paging loop calls it. */
  function FacetPager(search: Option<Value> -> FacetResponse): Option<Value> -> Page<Option<Value>> {
    after => FacetPage(search, after)
  }

  /** `get_facet_values`: the bucket keys of every page, first request without
      `after`; None when more than `fuel` follow-up requests are needed. */
  function FacetValues(search: Option<Value> -> FacetResponse, fuel: nat): (r: Option<seq<Value>>)
    ensures search(None).None? ==> r == Some([])
    ensures search(None).Some? && !Truthy(search(None).value.afterKey) ==> r == Some(search(None).value.bucketKeys)
    ensures r.Some? && search(None).Some? ==>
      var first := search(None).value.bucketKeys;
      |first| <= |r.value| && r.value[..|first|] == first
  {
    Collect(FacetPager(search), None, fuel)
  }

  /** A truthy `after_key` is sent back as the next request's `after`, and the
      values of that request and the ones after it follow the first page's. */
  lemma FacetValuesFollowAfterKey(search: Option<Value> -> FacetResponse, fuel: nat)
    requires search(None).Some? && Truthy(search(None).value.afterKey)
    ensures var agg := search(None).value;
      FacetValues(search, fuel + 1) == Prefixed(agg.bucketKeys, Collect(FacetPager(search), Some(agg.afterKey), fuel))
  {
  }

  /** The loop of `get_facet_values` computes the same values. */
  method FacetValuesLoop(search: Option<Value> -> FacetResponse, fuel: nat) returns (values: seq<Value>, complete: bool)
    ensures complete <==> FacetValues(search, fuel).Some?
    ensures complete ==> values == FacetValues(search, fuel).value
  {
    values, complete := CollectLoop(FacetPager(search), None, fuel);
  }

  /** `aggs[name].get('value_as_string')`. */
  function ValueAsString(aggs: map<string, Value>, name: string): (r: Outcome<Value>)
    ensures r.Ok? <==> name in aggs && aggs[name].Dict?
    ensures r.Ok? ==> r.value == Get(aggs[name].fields, "value_as_string")
  {
    if name !in aggs then Err(KeyError(name))
    else match aggs[name]
      case Dict(f) => Ok(Get(f, "value_as_string"))
      case _ => Err(AttributeError("get"))
  }

  /** The four `value_as_string` readings of the time-range aggregations. */
  datatype Stamps = Stamps(start: Value, end: Value, min: Value, max: Value)

  /** The readings, taken in the order `get_temporal_extent` takes them
      (max, min, end, start), so the first failing one is reported. */
  function ReadStamps(aggs: map<string, Value>): (r: Outcome<Stamps>)
    ensures r.Ok? <==> forall name | name in {"start_datetime", "end_datetime", "min_datetime", "max_datetime"} ::
      ValueAsString(aggs, name).Ok?
    ensures r.Ok? ==> r.value == Stamps(ValueAsString(aggs, "start_datetime").value, ValueAsString(aggs, "end_datetime").value,
                                        ValueAsString(aggs, "min_datetime").value, ValueAsString(aggs, "max_datetime").value)
  {
    var max :- ValueAsString(aggs, "max_datetime");
    var min :- ValueAsString(aggs, "min_datetime");
    var end :- ValueAsString(aggs, "end_datetime");
    var start :- ValueAsString(aggs, "start_datetime");
    Ok(Stamps(start, end, min, max))
  }

  /** `get_temporal_extent`, with Null for None: `[[start, end]]` when either
      of the start/end aggregations has a value, else `[[min, max]]` when both
      datetime aggregations do, else None. */
  function TemporalExtent(response: Body): (r: Outcome<Value>)
    ensures "aggregations" !in response ==> r == Err(KeyError("aggregations"))
    ensures "aggregations" in response && !Truthy(response["aggregations"]) ==> r == Ok(Null)
    ensures "aggregations" in response && Truthy(response["aggregations"]) && !response["aggregations"].Dict? ==> r.Err?
    ensures "aggregations" in response && response["aggregations"].Dict? && Truthy(response["aggregations"]) ==>
      var read := ReadStamps(response["aggregations"].fields);
      && (r.Ok? <==> read.Ok?)
      && (read.Ok? && (Truthy(read.value.start) || Truthy(read.value.end)) ==>
            r.value == List([List([read.value.start, read.value.end])]))
      && (read.Ok? && !Truthy(read.value.start) && !Truthy(read.value.end) && Truthy(read.value.min) && Truthy(read.value.max) ==>
            r.value == List([List([read.value.min, read.value.max])]))
      && (read.Ok? && !Truthy(read.value.start) && !Truthy(read.value.end) && !(Truthy(read.value.min) && Truthy(read.value.max)) ==>
            r.value == Null)
  {
    if "aggregations" !in response then Err(KeyError("aggregations"))
    else
      var a := response["aggregations"];
      if !Truthy(a) then Ok(Null)
      else match a
        case Dict(aggs) =>
          var s :- ReadStamps(aggs);
          if Truthy(s.start) || Truthy(s.end) then Ok(List([List([s.start, s.end])]))
          else if Truthy(s.min) && Truthy(s.max) then Ok(List([List([s.min, s.max])]))
          else Ok(Null)
        case _ => Err(TypeError("aggregations is not a dict"))
  }

  /** An open range is kept: a start without an end still gives
      `[[start, None]]`, and the datetime fallback is not consulted. */
  lemma OpenRangeKept(start: string, min: Value, max: Value)
    requires start != ""
    ensures var aggs := map["start_datetime" := Dict(map["value_as_string" := Str(start)]),
                            "end_datetime" := Dict(map[]),
                            "min_datetime" := min, "max_datetime" := max];
      min.Dict? && max.Dict? ==>
      TemporalExtent(map["aggregations" := Dict(aggs)]) == Ok(List([List([Str(start), Null])]))
  {
    var aggs := map["start_datetime" := Dict(map["value_as_string" := Str(start)]),
                    "end_datetime" := Dict(map[]),
                    "min_datetime" := min, "max_datetime" := max];
    if min.Dict? && max.Dict? {
      assert ValueAsString(aggs, "start_datetime") == Ok(Str(start));
      assert ValueAsString(aggs, "end_datetime") == Ok(Null);
      assert Truthy(Dict(aggs)) by { assert "max_datetime" in aggs; }
      assert ReadStamps(aggs).Ok?;
    }
  }

  /** The start/end aggregations take precedence: whenever either has a
      value, the extent is `[[start, end]]` whatever the min/max
      aggregations hold, as long as they can be read. */
  lemma StartEndOverrideMinMax(aggs: map<string, Value>, min: Value, max: Value)
    requires ReadStamps(aggs).Ok?
    requires Truthy(ReadStamps(aggs).value.start) || Truthy(ReadStamps(aggs).value.end)
    requires min.Dict? && max.Dict?
    ensures var s := ReadStamps(aggs).value;
      TemporalExtent(map["aggregations" := Dict(aggs)]) == Ok(List([List([s.start, s.end])]))
    ensures TemporalExtent(map["aggregations" := Dict(aggs["min_datetime" := min]["max_datetime" := max])])
            == TemporalExtent(map["aggregations" := Dict(aggs)])
  {
    var aggs' := aggs["min_datetime" := min]["max_datetime" := max];
    assert Truthy(Dict(aggs)) by { assert "start_datetime" in aggs; }
    assert Truthy(Dict(aggs')) by { assert "max_datetime" in aggs'; }
    forall name | name in {"start_datetime", "end_datetime"}
      ensures ValueAsString(aggs', name) == ValueAsString(aggs, name)
    {
      assert aggs'[name] == aggs[name];
    }
    assert ReadStamps(aggs').Ok?;
    assert ReadStamps(aggs').value.start == ReadStamps(aggs).value.start;
    assert ReadStamps(aggs').value.end == ReadStamps(aggs).value.end;
  }

  /** `get_extent`: `temporal` when the temporal extent is truthy; the spatial
      extent is always None, so nothing else is ever added. */
  function Extent(response: Body): (r: Outcome<Body>)
    ensures r.Ok? <==> TemporalExtent(response).Ok?
    ensures r.Ok? ==> r.value.Keys <= {"temporal"}
    ensures r.Ok? ==> ("temporal" in r.value <==> Truthy(TemporalExtent(response).value))
    ensures r.Ok? && "temporal" in r.value ==> r.value["temporal"] == TemporalExtent(response).value
  {
    var temporal :- TemporalExtent(response);
    if Truthy(temporal) then Ok(map["temporal" := temporal]) else Ok(map[])
  }

  /** The elements of a sequence of facet names. */
  function Elements(xs: seq<string>): set<string> {
    set i | 0 <= i < |xs| :: xs[i]
  }

  /** `ElasticsearchAggregator.run`: the summaries hold every facet, of the
      aggregation or search facets, that has values; `summaries` and `extent`
      appear only when non-empty. `valuesOf` is `get_facet_values` of each
      facet. */
  function Summarise(aggregationFacets: seq<string>, searchFacets: seq<string>,
                     valuesOf: string -> seq<Value>, extent: Body): (r: Body)
    ensures r.Keys <= {"summaries", "extent"}
    ensures "extent" in r <==> extent != map[]
    ensures "extent" in r ==> r["extent"] == Dict(extent)
    ensures "summaries" in r <==> exists f :: f in Elements(aggregationFacets + searchFacets) && valuesOf(f) != []
    ensures "summaries" in r ==> r["summaries"].Dict?
    ensures "summaries" in r ==>
      forall f :: f in r["summaries"].fields <==> f in Elements(aggregationFacets + searchFacets) && valuesOf(f) != []
    ensures "summaries" in r ==> forall f :: f in r["summaries"].fields ==> r["summaries"].fields[f] == List(valuesOf(f))
  {
    var facets := Elements(aggregationFacets + searchFacets);
    var summaries := map f | f in facets && valuesOf(f) != [] :: List(valuesOf(f));
    assert (exists f :: f in facets && valuesOf(f) != []) ==> summaries != map[] by {
      if exists f :: f in facets && valuesOf(f) != [] {
        var f :| f in facets && valuesOf(f) != [];
        assert f in summaries;
      }
    }
    var withSummaries := if summaries != map[] then map["summaries" := Dict(summaries)] else map[];
    if extent != map[] then withSummaries["extent" := Dict(extent)] else withSummaries
  }

  /** Every facet named in either list is summarised exactly when it has
      values: the facet set is the union of the two lists. */
  lemma SummariesCoverBothLists(aggregationFacets: seq<string>, searchFacets: seq<string>,
                                valuesOf: string -> seq<Value>, extent: Body, f: string)
    requires f in aggregationFacets || f in searchFacets
    requires valuesOf(f) != []
    ensures var r := Summarise(aggregationFacets, searchFacets, valuesOf, extent);
      "summaries" in r && f in r["summaries"].fields && r["summaries"].fields[f] == List(valuesOf(f))
  {
    var all := aggregationFacets + searchFacets;
    if f in aggregationFacets {
      var i :| 0 <= i < |aggregationFacets| && aggregationFacets[i] == f;
      assert all[i] == f;
    } else {
      var i :| 0 <= i < |searchFacets| && searchFacets[i] == f;
      assert all[|aggregationFacets| + i] == f;
    }
    assert f in Elements(all);
  }
}
