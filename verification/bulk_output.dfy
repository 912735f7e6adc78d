/** `BaseBulkOutput` (stac_generator/core/bulk_output.py): records are
    collected in a cache keyed by their `id` and handed to `export` in
    batches. A batch is exported as soon as the cache holds
    `cache_max_size` entries, and `clear_cache` exports whatever is left.

    The cache is a `cachetools.Cache` whose entries all have size one. Such a
    cache keeps its keys in insertion order. It refuses an entry larger than
    its capacity. Before it admits a new key it evicts the oldest entries until
    the new one fits. Rewriting an existing key keeps that key's place.
    `export` is the plugin's business; the model records each exported batch. */
module BulkOutput {
  import opened Wrappers
  import opened Values

  /** A `cachetools.Cache` of unit-size entries: `capacity` is its `maxsize`,
      which may be any number, a float included. */
  datatype Cache = Cache(capacity: real, order: seq<Value>, entries: map<Value, Body>)

  /** The keys in `order` are distinct and are exactly the stored keys. */
  ghost predicate WellFormed(c: Cache) {
    (forall i, j :: 0 <= i < j < |c.order| ==> c.order[i] != c.order[j])
    && (forall k :: k in c.entries <==> k in c.order)
  }

  /** The output: its configured threshold, an int, a bool or a float taken
      as a number, and its cache. */
  datatype BaseBulkOutput = BaseBulkOutput(cacheMaxSize: real, cache: Cache)

  /** What one call hands to `export`, if anything. */
  datatype Step = Step(out: BaseBulkOutput, batch: Option<seq<Body>>)

  /** The evictions `Cache.__setitem__` performs before storing a new key:
      the oldest entry goes while there is no room for one more. */
  function Evict(c: Cache): (r: Cache)
    decreases |c.order|
    ensures |r.order| <= |c.order|
    ensures (|c.order| + 1) as real <= c.capacity ==> r == c
  {
    if (|c.order| + 1) as real > c.capacity && |c.order| > 0 then
      Evict(c.(order := c.order[1..], entries := c.entries - {c.order[0]}))
    else c
  }

  /** `cache[key] = value` for a unit-size value. */
  function Put(c: Cache, key: Value, value: Body): (r: Outcome<Cache>)
    requires WellFormed(c)
    ensures r.Err? <==> c.capacity < 1.0
    ensures r.Ok? ==> WellFormed(r.value) && key in r.value.entries && r.value.entries[key] == value
    ensures r.Ok? ==> r.value.capacity == c.capacity
    ensures r.Ok? && key in c.entries ==> r.value.order == c.order && r.value.entries == c.entries[key := value]
    ensures r.Ok? && key !in c.entries && (|c.order| + 1) as real <= c.capacity ==>
      r.value.order == c.order + [key] && r.value.entries == c.entries[key := value]
  {
    if 1.0 > c.capacity then Err(ValueError("value too large"))
    else if key in c.entries then Ok(c.(entries := c.entries[key := value]))
    else
      var e := Evict(c);
      EvictKeepsShape(c);
      assert key !in e.order;
      Ok(Cache(c.capacity, e.order + [key], e.entries[key := value]))
  }

  lemma {:induction false} EvictKeepsShape(c: Cache)
    requires WellFormed(c)
    ensures WellFormed(Evict(c)) && Evict(c).capacity == c.capacity
    ensures Evict(c).entries.Keys <= c.entries.Keys
    ensures forall k :: k in Evict(c).entries ==> Evict(c).entries[k] == c.entries[k]
    decreases |c.order|
  {
    if (|c.order| + 1) as real > c.capacity && |c.order| > 0 {
      var d := c.(order := c.order[1..], entries := c.entries - {c.order[0]});
      forall k
        ensures k in d.entries <==> k in d.order
      {
        if k in d.order {
          var i :| 0 <= i < |d.order| && d.order[i] == k;
          assert c.order[i + 1] == k;
        }
        if k in c.order && k != c.order[0] {
          var i :| 0 <= i < |c.order| && c.order[i] == k;
          assert d.order[i - 1] == k;
        }
      }
      EvictKeepsShape(d);
    }
  }

  /** The cached records in cache order: `data_list`. */
  function DataList(c: Cache): (r: seq<Body>)
    requires WellFormed(c)
    ensures |r| == |c.order|
    ensures forall i :: 0 <= i < |r| ==> r[i] == c.entries[c.order[i]]
  {
    seq(|c.order|, i requires 0 <= i < |c.order| => c.entries[c.order[i]])
  }

  /** The `id` of every record in `bodies` that has one. */
  function Ids(bodies: seq<Body>): set<Value> {
    set i | 0 <= i < |bodies| && "id" in bodies[i] :: bodies[i]["id"]
  }

  /** The cache is well formed, its capacity is one more than the threshold,
      and every record is filed under its own id. */
  ghost predicate Filed(b: BaseBulkOutput) {
    WellFormed(b.cache)
    && b.cache.capacity == b.cacheMaxSize + 1.0
    && forall k :: k in b.cache.entries ==> "id" in b.cache.entries[k] && b.cache.entries[k]["id"] == k
  }

  /** The state every public operation preserves: filed, and below the
      threshold unless empty. */
  ghost predicate Valid(b: BaseBulkOutput) {
    Filed(b) && ((|b.cache.order| as real) < b.cacheMaxSize || |b.cache.order| == 0)
  }

  /** The exported records of a valid cache are those of its ids. */
  lemma DataListIds(b: BaseBulkOutput)
    requires Filed(b)
    ensures Ids(DataList(b.cache)) == b.cache.entries.Keys
  {
    var d := DataList(b.cache);
    forall k | k in b.cache.entries
      ensures k in Ids(d)
    {
      var i :| 0 <= i < |b.cache.order| && b.cache.order[i] == k;
      assert "id" in d[i] && d[i]["id"] == k;
    }
  }

  /** The number Python's `+` sees in a value: ints, floats and bools (as 0
      and 1) are numbers, anything else is not. */
  function Number(v: Value): Option<real> {
    match v
    case Int(n) => Some(n as real)
    case Float(x) => Some(x)
    case Bool(t) => Some(if t then 1.0 else 0.0)
    case _ => None
  }

  /** `__init__`: `cache_max_size` defaults to 100 and the cache holds one
      more entry than that. `cache_max_size + 1` raises TypeError for
      anything but a number; a float threshold is kept as it is. */
  function Init(kwargs: map<string, Value>): (r: Outcome<BaseBulkOutput>)
    ensures "cache_max_size" !in kwargs ==> r == Ok(BaseBulkOutput(100.0, Cache(101.0, [], map[])))
    ensures r.Ok? ==> Valid(r.value) && r.value.cache.order == []
    ensures "cache_max_size" in kwargs ==>
      (r.Ok? <==> Number(kwargs["cache_max_size"]).Some?)
      && (r.Ok? ==> r.value.cacheMaxSize == Number(kwargs["cache_max_size"]).value)
    ensures "cache_max_size" in kwargs && kwargs["cache_max_size"].Int? ==>
      r.Ok? && r.value.cacheMaxSize == kwargs["cache_max_size"].i as real
    ensures "cache_max_size" in kwargs && kwargs["cache_max_size"].Float? ==>
      r.Ok? && r.value.cacheMaxSize == kwargs["cache_max_size"].r
  {
    var max := if "cache_max_size" in kwargs then kwargs["cache_max_size"] else Int(100);
    match Number(max)
    case Some(n) => Ok(BaseBulkOutput(n, Cache(n + 1.0, [], map[])))
    case None => Err(TypeError("unsupported operand type for +"))
  }

  /** `clear_cache`: export the cached records, then empty the cache. */
  function ClearCache(b: BaseBulkOutput): (r: Step)
    requires Filed(b)
    ensures Valid(r.out) && r.out.cache.order == [] && r.out.cacheMaxSize == b.cacheMaxSize
    ensures r.batch.Some? && |r.batch.value| == |b.cache.entries|
  {
    CacheDistinctCard(b.cache);
    Step(b.(cache := b.cache.(order := [], entries := map[])), Some(DataList(b.cache)))
  }

  lemma CacheDistinctCard(c: Cache)
    requires WellFormed(c)
    ensures |c.entries| == |c.order|
  {
    var ks := set i | 0 <= i < |c.order| :: c.order[i];
    assert c.entries.Keys == ks;
    IndexSetCard(c.order);
  }

  lemma {:induction false} IndexSetCard(s: seq<Value>)
    requires forall i, j :: 0 <= i < j < |s| ==> s[i] != s[j]
    ensures |set i | 0 <= i < |s| :: s[i]| == |s|
    decreases |s|
  {
    if |s| > 0 {
      var t := s[..|s| - 1];
      IndexSetCard(t);
      var a := set i | 0 <= i < |t| :: t[i];
      var b := set i | 0 <= i < |s| :: s[i];
      assert b == a + {s[|s| - 1]};
      assert s[|s| - 1] !in a;
    }
  }

  /** `run(data)`: file the record under its id, then flush when the cache
      has reached the threshold. A record without an id raises KeyError, an
      unhashable id TypeError. */
  function RunRecord(b: BaseBulkOutput, data: Body): (r: Outcome<Step>)
    requires Valid(b)
    ensures "id" !in data ==> r == Err(KeyError("id"))
    ensures r.Ok? <==> "id" in data && Hashable(data["id"]) && b.cacheMaxSize >= 0.0
    ensures r.Ok? ==> Valid(r.value.out) && r.value.out.cacheMaxSize == b.cacheMaxSize
    ensures r.Ok? ==> (|r.value.out.cache.order| as real) < b.cacheMaxSize || r.value.out.cache.order == []
    ensures r.Ok? && r.value.batch.None? ==>
      r.value.out.cache.entries == b.cache.entries[data["id"] := data]
    ensures r.Ok? && r.value.batch.Some? ==>
      r.value.out.cache.entries == map[]
  {
    if "id" !in data then Err(KeyError("id"))
    else if !Hashable(data["id"]) then Err(TypeError("unhashable type"))
    else
      match Put(b.cache, data["id"], data)
      case Err(e) => Err(e)
      case Ok(c) =>
        var b' := b.(cache := c);
        assert c.entries == b.cache.entries[data["id"] := data];
        if |c.order| as real >= b.cacheMaxSize then Ok(ClearCache(b')) else Ok(Step(b', None))
  }

  /** All exported records of a run of batches, in export order. */
  function Flatten(batches: seq<seq<Body>>): seq<Body>
    decreases |batches|
  {
    if |batches| == 0 then [] else batches[0] + Flatten(batches[1..])
  }

  /** The batches one `run` hands to `export`: none or one. */
  function Batches(s: Step): seq<seq<Body>> {
    if s.batch.Some? then [s.batch.value] else []
  }

  /** Every record has an id Python can hash: what `run` needs of each one. */
  predicate HashableIds(items: seq<Body>) {
    forall i :: 0 <= i < |items| ==> "id" in items[i] && Hashable(items[i]["id"])
  }

  /** What a run over `items` needs to succeed: no records at all, or a
      non-negative threshold and a hashable id on every record. */
  predicate Runnable(b: BaseBulkOutput, items: seq<Body>) {
    items == [] || (b.cacheMaxSize >= 0.0 && HashableIds(items))
  }

  /** `run` on each record in turn, collecting the exported batches. The run
      fails exactly when some record lacks a hashable id, or when a negative
      threshold makes the cache refuse every entry. */
  function RunRecords(b: BaseBulkOutput, items: seq<Body>): (r: Outcome<(BaseBulkOutput, seq<seq<Body>>)>)
    requires Valid(b)
    ensures r.Ok? <==> Runnable(b, items)
    ensures r.Ok? ==> Valid(r.value.0) && r.value.0.cacheMaxSize == b.cacheMaxSize
    decreases |items|
  {
    if |items| == 0 then Ok((b, []))
    else
      var r := RunRecord(b, items[0]);
      if r.Err? then Err(r.error)
      else
        var rest := RunRecords(r.value.out, items[1..]);
        if rest.Err? then rest
        else Ok((rest.value.0, Batches(r.value) + rest.value.1))
  }

  lemma IdsAppend(a: seq<Body>, b: seq<Body>)
    ensures Ids(a + b) == Ids(a) + Ids(b)
  {
    forall v | v in Ids(a + b)
      ensures v in Ids(a) + Ids(b)
    {
      var i :| 0 <= i < |a + b| && "id" in (a + b)[i] && (a + b)[i]["id"] == v;
      if i >= |a| {
        assert b[i - |a|] == (a + b)[i];
      }
    }
    forall v | v in Ids(b)
      ensures v in Ids(a + b)
    {
      var i :| 0 <= i < |b| && "id" in b[i] && b[i]["id"] == v;
      assert (a + b)[|a| + i] == b[i];
    }
    forall v | v in Ids(a)
      ensures v in Ids(a + b)
    {
      var i :| 0 <= i < |a| && "id" in a[i] && a[i]["id"] == v;
      assert (a + b)[i] == a[i];
    }
  }

  lemma AppendAssoc<T>(a: seq<T>, b: seq<T>, c: seq<T>)
    ensures (a + b) + c == a + (b + c)
  {
  }

  /** The ids one `run` hands to `export`. */
  function BatchIds(s: Step): set<Value> {
    if s.batch.Some? then Ids(s.batch.value) else {}
  }

  /** One `run` loses nothing: the ids cached before, and the new id, are
      exported by it or still cached after it. */
  lemma RunKeepsEveryId(b: BaseBulkOutput, data: Body)
    requires Valid(b) && b.cacheMaxSize >= 0.0
    requires "id" in data && Hashable(data["id"])
    ensures RunRecord(b, data).Ok?
    ensures b.cache.entries.Keys + {data["id"]} <= BatchIds(RunRecord(b, data).value) + RunRecord(b, data).value.out.cache.entries.Keys
  {
    var c := Put(b.cache, data["id"], data).value;
    var b' := b.(cache := c);
    if |c.order| as real >= b.cacheMaxSize {
      ClearCacheExportsIds(b');
    }
  }

  /** `clear_cache` exports a record under every cached id, and nothing else. */
  lemma ClearCacheExportsIds(b: BaseBulkOutput)
    requires Filed(b)
    ensures Ids(ClearCache(b).batch.value) == b.cache.entries.Keys
  {
    DataListIds(b);
  }

  lemma {:induction false} FlattenAppend(a: seq<seq<Body>>, b: seq<seq<Body>>)
    ensures Flatten(a + b) == Flatten(a) + Flatten(b)
    decreases |a|
  {
    if |a| > 0 {
      assert (a + b)[1..] == a[1..] + b;
      FlattenAppend(a[1..], b);
    } else {
      assert a + b == b;
    }
  }

  lemma RunAllCons(b: BaseBulkOutput, items: seq<Body>)
    requires Valid(b) && b.cacheMaxSize >= 0.0
    requires |items| > 0 && HashableIds(items)
    ensures RunRecord(b, items[0]).Ok? && RunRecords(RunRecord(b, items[0]).value.out, items[1..]).Ok?
    ensures Ids(Flatten(RunRecords(b, items).value.1)) ==
      BatchIds(RunRecord(b, items[0]).value) + Ids(Flatten(RunRecords(RunRecord(b, items[0]).value.out, items[1..]).value.1))
    ensures RunRecords(b, items).value.0 == RunRecords(RunRecord(b, items[0]).value.out, items[1..]).value.0
  {
    var s := RunRecord(b, items[0]).value;
    var res := RunRecords(s.out, items[1..]).value;
    var head := Batches(s);
    assert RunRecords(b, items).value.1 == head + res.1;
    FlattenAppend(head, res.1);
    IdsAppend(Flatten(head), Flatten(res.1));
    BatchIdsFlatten(s);
  }

  lemma BatchIdsFlatten(s: Step)
    ensures BatchIds(s) == Ids(Flatten(Batches(s)))
  {
    if s.batch.Some? {
      assert Flatten(Batches(s)) == s.batch.value + Flatten([]);
      assert Flatten(Batches(s)) == s.batch.value;
    } else {
      assert Ids([]) == {};
    }
  }

  /** Nothing is lost: every id that was cached or passed to `run` is either in
      an exported batch or still in the cache at the end. No record is evicted
      unexported. */
  lemma {:induction false} RunAllKeepsEveryId(b: BaseBulkOutput, items: seq<Body>)
    requires Valid(b) && Runnable(b, items)
    ensures RunRecords(b, items).Ok?
    ensures b.cache.entries.Keys + Ids(items)
      <= Ids(Flatten(RunRecords(b, items).value.1)) + RunRecords(b, items).value.0.cache.entries.Keys
    decreases |items|
  {
    if |items| == 0 {
      assert Ids(items) == {};
    } else {
      RunAllCons(b, items);
      var s := RunRecord(b, items[0]).value;
      var res := RunRecords(s.out, items[1..]).value;
      var x := items[0]["id"];
      RunKeepsEveryId(b, items[0]);
      RunAllKeepsEveryId(s.out, items[1..]);
      IdsCons(items);
      SubsetChain(b.cache.entries.Keys, {x}, Ids(items[1..]), BatchIds(s), s.out.cache.entries.Keys,
                  Ids(Flatten(res.1)), res.0.cache.entries.Keys);
    }
  }

  /** The ids of a sequence whose first record has one. */
  lemma IdsCons(items: seq<Body>)
    requires |items| > 0 && "id" in items[0]
    ensures Ids(items) == {items[0]["id"]} + Ids(items[1..])
  {
    assert items == [items[0]] + items[1..];
    IdsAppend([items[0]], items[1..]);
    assert Ids([items[0]]) == {items[0]["id"]};
  }

  /** Two coverings chained through the intermediate set `mid`. */
  lemma SubsetChain<T>(before: set<T>, first: set<T>, later: set<T>, exported: set<T>, mid: set<T>,
                       exportedLater: set<T>, after: set<T>)
    requires before + first <= exported + mid
    requires mid + later <= exportedLater + after
    ensures before + (first + later) <= (exported + exportedLater) + after
  {
  }

  /** Once the records are all in and the cache is cleared, every id passed to
      `run` has been exported. */
  lemma RunThenClearExportsEveryId(b: BaseBulkOutput, items: seq<Body>)
    requires Valid(b) && b.cache.order == [] && Runnable(b, items)
    ensures RunRecords(b, items).Ok?
    ensures Valid(RunRecords(b, items).value.0)
    ensures Ids(items) <= Ids(Flatten(RunRecords(b, items).value.1 + [ClearCache(RunRecords(b, items).value.0).batch.value]))
  {
    RunAllKeepsEveryId(b, items);
    var res := RunRecords(b, items).value;
    var last := ClearCache(res.0).batch.value;
    ClearCacheExportsIds(res.0);
    FlattenSnoc(res.1, last);
    IdsAppend(Flatten(res.1), last);
  }

  lemma {:induction false} FlattenSnoc(bs: seq<seq<Body>>, last: seq<Body>)
    ensures Flatten(bs + [last]) == Flatten(bs) + last
    decreases |bs|
  {
    if |bs| == 0 {
      assert Flatten([last]) == last + Flatten([]);
    } else {
      assert (bs + [last])[1..] == bs[1..] + [last];
      FlattenSnoc(bs[1..], last);
    }
  }
}
