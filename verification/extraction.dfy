/** The leaf extraction methods of stac_generator
    (the modules under stac_generator/plugins/extraction_methods/ and the
    `hash` id method):
    body-to-body transforms that rename, prefix, join, remove, default and
    combine keys, and the id strings built from terms.

    Python's dict iteration order matters wherever two keys can land on the
    same name; those members take the body's key order as `order`, with
    `Enumerates(order, body)` saying it lists every key once. */
module Extraction {
  import opened Wrappers
  import opened Values
  import opened Strings
  import opened Paths
  import opened Dates
  import Describers
  import AssetCore

  /** The keys of `keys`, as a set. */
  function KeySet(keys: seq<string>): set<string> {
    set i | 0 <= i < |keys| :: keys[i]
  }

  // ---------------------------------------------------------------- default

  /** One configured default: a string starting with `existsKey` refers to
      the body key after the marker; an empty string fails at
      `default_value[0]`; anything else is copied. */
  function ResolveDefault(body: Body, existsKey: string, v: Value): (r: Outcome<Value>)
    ensures !v.Str? ==> r == Ok(v)
    ensures v.Str? && v.s == "" ==> r == Err(IndexError)
    ensures v.Str? && v.s != "" && [v.s[0]] != existsKey ==> r == Ok(v)
    ensures v.Str? && v.s != "" && [v.s[0]] == existsKey ==>
      (r.Ok? <==> v.s[1..] in body) && (r.Ok? ==> r.value == body[v.s[1..]])
  {
    match v
    case Str(s) =>
      if s == [] then Err(IndexError)
      else if [s[0]] == existsKey then
        (if s[1..] in body then Ok(body[s[1..]]) else Err(KeyError(s[1..])))
      else Ok(v)
    case _ => Ok(v)
  }

  /** The defaults resolved in iteration order; the first failure is raised. */
  function ResolveDefaults(body: Body, existsKey: string, defaults: Body, order: seq<string>): (r: Outcome<Body>)
    requires forall i :: 0 <= i < |order| ==> order[i] in defaults
    ensures r.Ok? <==> forall i :: 0 <= i < |order| ==> ResolveDefault(body, existsKey, defaults[order[i]]).Ok?
    ensures r.Ok? ==> r.value.Keys == KeySet(order)
    ensures r.Ok? ==> forall k | k in r.value :: ResolveDefault(body, existsKey, defaults[k]) == Ok(r.value[k])
    decreases |order|
  {
    if order == [] then Ok(map[])
    else
      match ResolveDefault(body, existsKey, defaults[order[0]])
      case Err(e) => Err(e)
      case Ok(v) =>
        match ResolveDefaults(body, existsKey, defaults, order[1..])
        case Err(e) => Err(e)
        case Ok(rest) =>
          KeySetCons(order);
          Ok(rest[order[0] := v])
  }

  /** `DefaultExtract.run`: `body | resolved_defaults`. References resolve
      against the incoming body, so one default cannot see another. */
  function DefaultRun(body: Body, existsKey: string, defaults: Body, order: seq<string>): (r: Outcome<Body>)
    requires Enumerates(order, defaults)
    ensures r.Ok? <==> forall k :: k in defaults ==> ResolveDefault(body, existsKey, defaults[k]).Ok?
    ensures r.Ok? ==> r.value.Keys == body.Keys + defaults.Keys
    ensures r.Ok? ==> forall k | k in defaults :: ResolveDefault(body, existsKey, defaults[k]) == Ok(r.value[k])
    ensures r.Ok? ==> forall k | k in body && k !in defaults :: r.value[k] == body[k]
  {
    assert KeySet(order) == defaults.Keys;
    match ResolveDefaults(body, existsKey, defaults, order)
    case Err(e) =>
      assert exists i :: 0 <= i < |order| && !ResolveDefault(body, existsKey, defaults[order[i]]).Ok?;
      Err(e)
    case Ok(resolved) => Ok(body + resolved)
  }

  // ---------------------------------------------------------------- regex

  /** `RegexExtract.run`: `re.match` against `body["uri"]`; on a match the
      named groups are merged over the body, otherwise it is unchanged. */
  function RegexRun(fx: Foreign, pattern: string, body: Body): (r: Outcome<Body>)
    ensures "uri" !in body ==> r == Err(KeyError("uri"))
    ensures r.Ok? ==> "uri" in body && body["uri"].Str?
    ensures r.Ok? && fx.matchGroups(pattern, body["uri"].s).None? ==> r.value == body
    ensures r.Ok? && fx.matchGroups(pattern, body["uri"].s).Some? ==>
      var g := fx.matchGroups(pattern, body["uri"].s).value;
      r.value.Keys == body.Keys + g.Keys
      && (forall k | k in g :: r.value[k] == g[k])
      && (forall k | k in body && k !in g :: r.value[k] == body[k])
  {
    if "uri" !in body then Err(KeyError("uri"))
    else match body["uri"]
      case Str(s) =>
        (match fx.matchGroups(pattern, s)
         case None => Ok(body)
         case Some(g) => Ok(body + g))
      case _ => Err(TypeError("expected string or bytes-like object"))
  }

  // ---------------------------------------------------------------- renaming

  /** The new names of the keys of `order`. */
  function Names(order: seq<string>, rename: string -> string): set<string> {
    set i | 0 <= i < |order| :: rename(order[i])
  }

  /** Appending a key adds its new name. */
  lemma NamesSnoc(order: seq<string>, rename: string -> string)
    requires order != []
    ensures Names(order, rename) == Names(order[..|order| - 1], rename) + {rename(order[|order| - 1])}
  {
    var n := |order| - 1;
    forall k | k in Names(order, rename) ensures k in Names(order[..n], rename) + {rename(order[n])} {
      var i :| 0 <= i < |order| && rename(order[i]) == k;
      if i < n { assert order[..n][i] == order[i]; }
    }
    forall k | k in Names(order[..n], rename) ensures k in Names(order, rename) {
      var i :| 0 <= i < n && rename(order[..n][i]) == k;
      assert order[i] == order[..n][i];
    }
  }

  /** Copying the keys of `order` into a fresh dict under their new names, in
      order, so that a later key overwrites an earlier one with the same new
      name. */
  function Renamed(order: seq<string>, body: Body, rename: string -> string): (r: Body)
    requires forall i :: 0 <= i < |order| ==> order[i] in body
    ensures r.Keys == Names(order, rename)
    decreases |order|
  {
    if order == [] then map[]
    else
      var n := |order| - 1;
      NamesSnoc(order, rename);
      Renamed(order[..n], body, rename)[rename(order[n]) := body[order[n]]]
  }

  /** A key whose new name no later key takes keeps its value under that
      name: the last writer wins. */
  lemma {:induction false} RenamedLastWins(order: seq<string>, body: Body, rename: string -> string, i: nat)
    requires forall i :: 0 <= i < |order| ==> order[i] in body
    requires i < |order|
    requires forall j :: i < j < |order| ==> rename(order[j]) != rename(order[i])
    ensures rename(order[i]) in Renamed(order, body, rename)
    ensures Renamed(order, body, rename)[rename(order[i])] == body[order[i]]
    decreases |order|
  {
    var n := |order| - 1;
    if i < n {
      var init := order[..n];
      assert init[i] == order[i];
      forall j | i < j < |init| ensures rename(init[j]) != rename(init[i]) {
        assert init[j] == order[j];
      }
      RenamedLastWins(init, body, rename, i);
    }
  }

  /** Every output value is the value of some input key that the renaming
      sends there: values are moved, never changed. */
  lemma {:induction false} RenamedValuesFromBody(order: seq<string>, body: Body, rename: string -> string, o: string)
    requires forall i :: 0 <= i < |order| ==> order[i] in body
    requires o in Renamed(order, body, rename)
    ensures exists i :: 0 <= i < |order| && rename(order[i]) == o && Renamed(order, body, rename)[o] == body[order[i]]
    decreases |order|
  {
    var n := |order| - 1;
    if rename(order[n]) != o {
      RenamedValuesFromBody(order[..n], body, rename, o);
      var i :| 0 <= i < n && rename(order[..n][i]) == o && Renamed(order[..n], body, rename)[o] == body[order[..n][i]];
      assert order[i] == order[..n][i];
    }
  }

  /** A renaming that sends no two keys to the same name keeps the number of
      keys. */
  lemma {:induction false} RenamedCard(order: seq<string>, body: Body, rename: string -> string)
    requires forall i :: 0 <= i < |order| ==> order[i] in body
    requires forall i, j :: 0 <= i < j < |order| ==> rename(order[i]) != rename(order[j])
    ensures |Renamed(order, body, rename)| == |order|
    decreases |order|
  {
    if order != [] {
      var n := |order| - 1;
      var init := order[..n];
      assert forall i :: 0 <= i < n ==> init[i] == order[i];
      RenamedCard(init, body, rename);
      var prev := Renamed(init, body, rename);
      assert rename(order[n]) !in prev by {
        forall i | 0 <= i < n ensures rename(init[i]) != rename(order[n]) {
          assert init[i] == order[i];
        }
      }
      assert Renamed(order, body, rename) == prev[rename(order[n]) := body[order[n]]];
    }
  }

  /** Renaming every key of a body, listed once each, gives the set of new
      names of its keys. */
  lemma RenamedKeys(order: seq<string>, body: Body, rename: string -> string)
    requires Enumerates(order, body)
    ensures Renamed(order, body, rename).Keys == set k | k in body :: rename(k)
  {
    forall k | k in body ensures rename(k) in Names(order, rename) {
      var i :| 0 <= i < |order| && order[i] == k;
    }
    forall o | o in Names(order, rename) ensures o in set k | k in body :: rename(k) {
      var i :| 0 <= i < |order| && rename(order[i]) == o;
      assert order[i] in body;
    }
  }

  /** A key whose new name no other key of the body shares keeps its value
      under that name, whatever the order. */
  lemma RenamedUnique(order: seq<string>, body: Body, rename: string -> string, k: string)
    requires Enumerates(order, body)
    requires k in body
    requires forall k2 | k2 in body && k2 != k :: rename(k2) != rename(k)
    ensures rename(k) in Renamed(order, body, rename)
    ensures Renamed(order, body, rename)[rename(k)] == body[k]
  {
    var i :| 0 <= i < |order| && order[i] == k;
    forall j | i < j < |order| ensures rename(order[j]) != rename(order[i]) {
      assert order[j] != order[i];
      assert order[j] in body;
    }
    RenamedLastWins(order, body, rename, i);
  }

  /** The name `facet_map` gives a key: its `term_map` entry when truthy,
      else the key itself. `term_map` values are taken to be strings, `""`
      standing for every falsy entry. */
  function MapName(termMap: map<string, string>, k: string): (r: string)
    ensures k in termMap && termMap[k] != "" ==> r == termMap[k]
    ensures !(k in termMap && termMap[k] != "") ==> r == k
  {
    if k in termMap && termMap[k] != "" then termMap[k] else k
  }

  /** `MapName` as a renaming. */
  function MapRename(termMap: map<string, string>): string -> string {
    k => MapName(termMap, k)
  }

  /** `FacetMapExtract.run` (and the `facet_map` post-processors): the body
      with its keys renamed through `term_map`; when two keys land on the same
      name, the later one in body order wins. */
  function FacetMapRun(body: Body, order: seq<string>, termMap: map<string, string>): (r: Body)
    requires Enumerates(order, body)
    ensures r.Keys == set k | k in body :: MapName(termMap, k)
    ensures forall k | k in body && (forall k2 | k2 in body && k2 != k :: MapName(termMap, k2) != MapName(termMap, k)) ::
      r[MapName(termMap, k)] == body[k]
    ensures body == map[] ==> r == map[]
  {
    var rename := MapRename(termMap);
    RenamedKeys(order, body, rename);
    forall k | k in body && (forall k2 | k2 in body && k2 != k :: MapName(termMap, k2) != MapName(termMap, k))
      ensures Renamed(order, body, rename)[MapName(termMap, k)] == body[k]
    {
      RenamedUnique(order, body, rename, k);
    }
    Renamed(order, body, rename)
  }

  /** Of two keys mapped to the same name, the later one in body order wins. */
  lemma FacetMapLastWins(body: Body, order: seq<string>, termMap: map<string, string>, i: nat)
    requires Enumerates(order, body)
    requires i < |order|
    requires forall j :: i < j < |order| ==> MapName(termMap, order[j]) != MapName(termMap, order[i])
    ensures FacetMapRun(body, order, termMap)[MapName(termMap, order[i])] == body[order[i]]
  {
    RenamedLastWins(order, body, MapRename(termMap), i);
  }

  /** The name `facet_prefix` gives a key: `"{prefix}:{key}"` for the
      configured terms. */
  function PrefixName(prefix: string, terms: seq<string>, k: string): (r: string)
    ensures k in terms ==> r == prefix + ":" + k
    ensures k !in terms ==> r == k
  {
    if k in terms then prefix + ":" + k else k
  }

  /** `PrefixName` as a renaming. */
  function PrefixRename(prefix: string, terms: seq<string>): string -> string {
    k => PrefixName(prefix, terms, k)
  }

  /** `FacetPrefixExtract.run` (and the `facet_prefix` post-processors): the
      configured terms renamed with the prefix; any other key whose name no
      prefixed term takes keeps its value. */
  function FacetPrefixRun(body: Body, order: seq<string>, prefix: string, terms: seq<string>): (r: Body)
    requires Enumerates(order, body)
    ensures r.Keys == set k | k in body :: PrefixName(prefix, terms, k)
    ensures forall k | k in body && k !in terms && (forall t | t in body && t in terms :: prefix + ":" + t != k) :: r[k] == body[k]
    ensures body == map[] ==> r == map[]
  {
    var rename := PrefixRename(prefix, terms);
    RenamedKeys(order, body, rename);
    forall k | k in body && k !in terms && (forall t | t in body && t in terms :: prefix + ":" + t != k)
      ensures Renamed(order, body, rename)[k] == body[k]
    {
      RenamedUnique(order, body, rename, k);
    }
    Renamed(order, body, rename)
  }

  /** Two prefixed names are equal only for equal keys. */
  lemma PrefixInjective(prefix: string, a: string, b: string)
    requires prefix + ":" + a == prefix + ":" + b
    ensures a == b
  {
    var n := |prefix| + 1;
    assert a == (prefix + ":" + a)[n..];
    assert b == (prefix + ":" + b)[n..];
  }

  /** When no prefixed name is already a key of the body, `facet_prefix`
      keeps the number of keys. */
  lemma FacetPrefixKeepsCount(body: Body, order: seq<string>, prefix: string, terms: seq<string>)
    requires Enumerates(order, body)
    requires forall k | k in body && k in terms :: prefix + ":" + k !in body
    ensures |FacetPrefixRun(body, order, prefix, terms)| == |body|
  {
    var rename := PrefixRename(prefix, terms);
    forall i, j | 0 <= i < j < |order| ensures rename(order[i]) != rename(order[j]) {
      var a, b := order[i], order[j];
      assert a != b;
      if a in terms && b in terms {
        if rename(a) == rename(b) { PrefixInjective(prefix, a, b); }
      }
    }
    RenamedCard(order, body, rename);
    assert KeySet(order) == body.Keys;
    DistinctCard(order);
  }

  /** A duplicate-free sequence has as many elements as its set. */
  lemma {:induction false} DistinctCard(xs: seq<string>)
    requires forall i, j :: 0 <= i < j < |xs| ==> xs[i] != xs[j]
    ensures |KeySet(xs)| == |xs|
    decreases |xs|
  {
    if xs != [] {
      var n := |xs| - 1;
      DistinctCard(xs[..n]);
      assert KeySet(xs) == KeySet(xs[..n]) + {xs[n]} by {
        forall k | k in KeySet(xs) ensures k in KeySet(xs[..n]) + {xs[n]} {
          var i :| 0 <= i < |xs| && xs[i] == k;
          if i < n { assert xs[..n][i] == k; }
        }
      }
      forall i | 0 <= i < n ensures xs[..n][i] != xs[n] {
        assert xs[..n][i] == xs[i];
      }
      assert xs[n] !in KeySet(xs[..n]);
    }
  }

  // ---------------------------------------------------------------- string join

  /** Whether every key can be popped in turn: present and not repeated. */
  predicate Poppable(body: Body, keys: seq<string>) {
    (forall i :: 0 <= i < |keys| ==> keys[i] in body)
    && (forall i, j :: 0 <= i < j < |keys| ==> keys[i] != keys[j])
  }

  /** The body after popping `keys` in order, with the popped values, or None
      for the values when a pop raises KeyError; the keys popped before that
      stay removed. */
  datatype Popped = Popped(body: Body, values: Option<seq<Value>>)

  function PopAll(body: Body, keys: seq<string>): (r: Popped)
    ensures r.values.Some? <==> Poppable(body, keys)
    ensures r.values.Some? ==> |r.values.value| == |keys| && (forall i :: 0 <= i < |keys| ==> r.values.value[i] == body[keys[i]])
    ensures r.values.Some? ==> r.body == body - KeySet(keys)
    ensures r.values.None? ==> exists m :: 0 <= m < |keys| && keys[m] !in body - KeySet(keys[..m]) && r.body == body - KeySet(keys[..m])
    decreases |keys|
  {
    if keys == [] then Popped(body, Some([]))
    else if keys[0] !in body then
      assert KeySet(keys[..0]) == {};
      assert body - KeySet(keys[..0]) == body;
      Popped(body, None)
    else
      var rest := PopAll(body - {keys[0]}, keys[1..]);
      KeySetCons(keys);
      PoppableCons(body, keys);
      match rest.values
      case Some(vs) => Popped(rest.body, Some([body[keys[0]]] + vs))
      case None =>
        PopAllStopsLater(body, keys, rest.body);
        Popped(rest.body, None)
  }

  /** A pop that fails after the first key fails at the same key of the
      whole sequence, with the first key popped as well. */
  lemma PopAllStopsLater(body: Body, keys: seq<string>, after: Body)
    requires keys != [] && keys[0] in body
    requires exists m :: (0 <= m < |keys[1..]| && keys[1..][m] !in (body - {keys[0]}) - KeySet(keys[1..][..m])
                          && after == (body - {keys[0]}) - KeySet(keys[1..][..m]))
    ensures exists m :: 0 <= m < |keys| && keys[m] !in body - KeySet(keys[..m]) && after == body - KeySet(keys[..m])
  {
    var m :| 0 <= m < |keys[1..]| && keys[1..][m] !in (body - {keys[0]}) - KeySet(keys[1..][..m])
      && after == (body - {keys[0]}) - KeySet(keys[1..][..m]);
    KeySetPrefixCons(keys, m);
    assert keys[m + 1] == keys[1..][m];
  }

  /** The keys of a non-empty sequence: its first and those of the rest. */
  lemma KeySetCons(keys: seq<string>)
    requires keys != []
    ensures KeySet(keys) == {keys[0]} + KeySet(keys[1..])
  {
    forall k | k in KeySet(keys) ensures k in {keys[0]} + KeySet(keys[1..]) {
      var i :| 0 <= i < |keys| && keys[i] == k;
      if i > 0 { assert keys[1..][i - 1] == k; }
    }
  }

  /** The first `m + 1` keys: the first key and the first `m` of the rest. */
  lemma KeySetPrefixCons(keys: seq<string>, m: nat)
    requires m < |keys|
    ensures KeySet(keys[..m + 1]) == {keys[0]} + KeySet(keys[1..][..m])
  {
    KeySetCons(keys[..m + 1]);
    assert keys[..m + 1][1..] == keys[1..][..m];
  }

  /** Popping every key is popping the first, then the rest. */
  lemma PoppableCons(body: Body, keys: seq<string>)
    requires keys != [] && keys[0] in body
    ensures Poppable(body, keys) <==> Poppable(body - {keys[0]}, keys[1..])
  {
    if Poppable(body - {keys[0]}, keys[1..]) {
      forall i, j | 0 <= i < j < |keys| ensures keys[i] != keys[j] {
        if i > 0 { assert keys[1..][i - 1] != keys[1..][j - 1]; }
        else { assert keys[1..][j - 1] in body - {keys[0]}; }
      }
      forall i | 0 <= i < |keys| ensures keys[i] in body {
        if i > 0 { assert keys[1..][i - 1] in body - {keys[0]}; }
      }
    }
    if Poppable(body, keys) {
      forall i | 0 <= i < |keys[1..]| ensures keys[1..][i] in body - {keys[0]} {
        assert keys[1..][i] == keys[i + 1];
      }
    }
  }

  /** The printed values joined with the delimiter. */
  function JoinValues(fx: Foreign, values: seq<Value>, delimiter: string): string {
    Join(seq(|values|, i requires 0 <= i < |values| => PyStr(values[i], fx)), delimiter)
  }

  /** `StringJoinExtract.run` (and the `string_join` post-processors):
      destructive mode pops `key_list` and writes the joined values under
      `key`, or, on a KeyError, keeps the pops already made and writes
      nothing; non-destructive mode reads with `get`, so a missing key prints
      as `None`. */
  function StringJoinRun(fx: Foreign, body: Body, keyList: seq<string>, delimiter: string, key: string, destructive: bool): (r: Body)
    ensures destructive && Poppable(body, keyList) ==>
      r == (body - KeySet(keyList))[key := Str(JoinValues(fx, seq(|keyList|, i requires 0 <= i < |keyList| => body[keyList[i]]), delimiter))]
    ensures destructive && !Poppable(body, keyList) ==>
      exists m :: 0 <= m < |keyList| && keyList[m] !in body - KeySet(keyList[..m]) && r == body - KeySet(keyList[..m])
    ensures !destructive ==>
      r == body[key := Str(JoinValues(fx, seq(|keyList|, i requires 0 <= i < |keyList| => Get(body, keyList[i])), delimiter))]
  {
    if destructive then
      var p := PopAll(body, keyList);
      match p.values
      case Some(vs) =>
        assert vs == seq(|keyList|, i requires 0 <= i < |keyList| => body[keyList[i]]);
        p.body[key := Str(JoinValues(fx, vs, delimiter))]
      case None => p.body
    else
      body[key := Str(JoinValues(fx, seq(|keyList|, i requires 0 <= i < |keyList| => Get(body, keyList[i])), delimiter))]
  }

  // ---------------------------------------------------------------- remove

  /** `RemoveExtract.run`: the listed keys are deleted when present. */
  function RemoveRun(body: Body, keys: seq<string>): (r: Body)
    ensures forall i :: 0 <= i < |keys| ==> keys[i] !in r
    ensures forall k | k in body && k !in keys :: k in r && r[k] == body[k]
    ensures r.Keys <= body.Keys
  {
    body - KeySet(keys)
  }

  /** Removing twice is removing once. */
  lemma RemoveIdempotent(body: Body, keys: seq<string>)
    ensures RemoveRun(RemoveRun(body, keys), keys) == RemoveRun(body, keys)
  {
  }

  // ---------------------------------------------------------------- date combinator

  /** `DateCombinatorExtract.run`. It is `CombineDates`, except that its log
      messages read `body["uri"]`: without a `uri` the paths that log (no
      year, a failing format, no parse) raise KeyError. */
  function DateCombinatorRun(fx: Foreign, body: Body, format: string, key: string, destructive: bool): (r: Outcome<Body>)
    ensures "uri" in body ==> r == Ok(CombineDates(fx, body, format, key, destructive))
    ensures r.Ok? ==> r.value == CombineDates(fx, body, format, key, destructive)
    ensures body != map[] && !Truthy(Get(body, "year")) && "uri" !in body ==> r == Err(KeyError("uri"))
  {
    if body == map[] then Ok(body)
    else if !Truthy(Get(body, "year")) then (if "uri" in body then Ok(body) else Err(KeyError("uri")))
    else if !("year" in body && "month" in body && "day" in body) && format == "" then Ok(body)
    else
      var date := Trim(Filled(fx, body));
      var iso := IsoformatDate(fx, date, format);
      var logs := iso.1 || !(iso.0.Some? && iso.0.value != "");
      if logs && "uri" !in body then Err(KeyError("uri"))
      else Ok(CombineDates(fx, body, format, key, destructive))
  }

  // ---------------------------------------------------------------- id strings

  /** What a `str` or `int` term contributes. `isinstance(vals, (str, int))`
      admits integers (and booleans), but `".".join` then raises TypeError on
      them as written; `Corrected` prints them with `str`. */
  function ScalarPiece(v: Variant, vals: Value): (r: Outcome<Option<string>>)
    ensures vals.Str? ==> r == Ok(Some(vals.s))
    ensures (vals.Int? || vals.Bool?) && v.AsWritten? ==> r.Err?
    ensures vals.Int? && v.Corrected? ==> r == Ok(Some(IntToStr(vals.i)))
    ensures !(vals.Str? || vals.Int? || vals.Bool?) ==> r == Ok(None)
  {
    match vals
    case Str(s) => Ok(Some(s))
    case Int(i) => if v.AsWritten? then Err(TypeError("sequence item 1: expected str instance, int found")) else Ok(Some(IntToStr(i)))
    case Bool(b) => if v.AsWritten? then Err(TypeError("sequence item 1: expected str instance, bool found")) else Ok(Some(if b then "True" else "False"))
    case _ => Ok(None)
  }

  /** What a term contributes to `dot_seperated_str`: a one-element list its
      element, a longer list `multi_{facet}`, an empty list nothing. */
  function DotPiece(v: Variant, facet: string, vals: Value): (r: Outcome<Option<string>>)
    ensures vals.List? && |vals.items| == 1 ==> (r.Ok? <==> vals.items[0].Str?) && (r.Ok? ==> r.value == Some(vals.items[0].s))
    ensures vals.List? && |vals.items| > 1 ==> r == Ok(Some("multi_" + facet))
    ensures vals.List? && vals.items == [] ==> r == Ok(None)
    ensures !vals.List? ==> r == ScalarPiece(v, vals)
  {
    match vals
    case List(xs) =>
      if |xs| == 1 then (if xs[0].Str? then Ok(Some(xs[0].s)) else Err(TypeError("sequence item 1: expected str instance")))
      else if xs == [] then Ok(None)
      else Ok(Some("multi_" + facet))
    case _ => ScalarPiece(v, vals)
  }

  /** What a term contributes to a hashed id: any list `multi_{facet}`. */
  function HashPiece(v: Variant, facet: string, vals: Value): (r: Outcome<Option<string>>)
    ensures vals.List? ==> r == Ok(Some("multi_" + facet))
    ensures !vals.List? ==> r == ScalarPiece(v, vals)
  {
    if vals.List? then Ok(Some("multi_" + facet)) else ScalarPiece(v, vals)
  }

  /** The contributions of the terms present in `d`, in term order; `multi`
      selects the hashing rule for lists. */
  function Pieces(v: Variant, d: Body, terms: seq<string>, multi: bool): (r: Outcome<seq<string>>)
    ensures r.Ok? ==> |r.value| <= |terms|
    ensures (forall i :: 0 <= i < |terms| ==> terms[i] in d && d[terms[i]].Str?) ==>
      r.Ok? && |r.value| == |terms| && forall i :: 0 <= i < |terms| ==> r.value[i] == d[terms[i]].s
    decreases |terms|
  {
    if terms == [] then Ok([])
    else
      var piece := if terms[0] !in d then Ok(None)
                   else if multi then HashPiece(v, terms[0], d[terms[0]])
                   else DotPiece(v, terms[0], d[terms[0]]);
      match piece
      case Err(e) => Err(e)
      case Ok(p) =>
        match Pieces(v, d, terms[1..], multi)
        case Err(e) => Err(e)
        case Ok(rest) =>
          Ok(if p.Some? then [p.value] + rest else rest)
  }

  /** One present term contributes its piece, if any. */
  lemma PiecesOne(v: Variant, d: Body, t: string, multi: bool)
    requires t in d
    ensures var p := if multi then HashPiece(v, t, d[t]) else DotPiece(v, t, d[t]);
      Pieces(v, d, [t], multi) == (if p.Err? then Err(p.error) else Ok(if p.value.Some? then [p.value.value] else []))
  {
    assert [t][1..] == [];
    assert Pieces(v, d, [], multi) == Ok([]);
    assert forall x: string :: [x] + [] == [x];
  }

  /** The loop's accumulator: `output = ".".join((output, piece))` for each
      piece. */
  function DotAppend(acc: string, pieces: seq<string>): string
    decreases |pieces|
  {
    if pieces == [] then acc else DotAppend(acc + "." + pieces[0], pieces[1..])
  }

  /** The accumulation is the accumulator, a dot, and the pieces joined with
      dots. */
  lemma {:induction false} DotAppendJoin(acc: string, pieces: seq<string>)
    requires pieces != []
    ensures DotAppend(acc, pieces) == acc + "." + Join(pieces, ".")
    decreases |pieces|
  {
    if |pieces| > 1 {
      DotAppendJoin(acc + "." + pieces[0], pieces[1..]);
      assert Join(pieces, ".") == pieces[0] + "." + Join(pieces[1..], ".");
    }
  }

  /** `output[1:]`. */
  function Tail(s: string): string {
    if s == "" then "" else s[1..]
  }

  /** `output[1:]` of the accumulation from `""` is the pieces joined with
      dots. */
  lemma DottedIsJoin(pieces: seq<string>)
    ensures Tail(DotAppend("", pieces)) == Join(pieces, ".")
  {
    if pieces != [] {
      DotAppendJoin("", pieces);
      assert ("" + "." + Join(pieces, "."))[1..] == Join(pieces, ".");
    }
  }

  /** `DotSeperatedStrExtract.run`: the contributions of the present terms,
      joined with dots, under `output_key`; without a `terms` attribute the
      method returns None. */
  function DotSeparatedRun(v: Variant, body: Body, terms: Option<seq<string>>, outputKey: string): (r: Outcome<Option<Body>>)
    ensures terms.None? ==> r == Ok(None)
    ensures terms.Some? ==> (r.Ok? <==> Pieces(v, body, terms.value, false).Ok?)
    ensures terms.Some? && r.Ok? ==> r.value == Some(body[outputKey := Str(Join(Pieces(v, body, terms.value, false).value, "."))])
  {
    match terms
    case None => Ok(None)
    case Some(ts) =>
      match Pieces(v, body, ts, false)
      case Err(e) => Err(e)
      case Ok(ps) =>
        DottedIsJoin(ps);
        Ok(Some(body[outputKey := Str(Tail(DotAppend("", ps)))]))
  }

  /** Whether every term is a key of the properties. */
  predicate AllPresent(props: map<string, Value>, ts: seq<string>) {
    forall i :: 0 <= i < |ts| ==> ts[i] in props
  }

  /** `HashIdExtract.run`: with `terms` all present in `properties`, the md5
      of their contributions joined with dots; otherwise the md5 of
      `"{collection_id}.{uri}"` when `collection_id` is a term, else of the
      `uri` property, which must be a string to be encoded. Without a `terms`
      attribute the `elif` fails. With no terms at all `properties` is never
      looked into; a string or list is searched by `in` but has no `.get`,
      and any other non-dict cannot be searched. */
  function HashIdRun(v: Variant, fx: Foreign, body: Body, terms: Option<seq<string>>): (r: Outcome<string>)
    ensures "properties" !in body ==> r == Err(KeyError("properties"))
    ensures "properties" in body && terms.None? ==> r == Err(AttributeError("terms"))
    ensures "properties" in body && terms == Some([]) ==> r == Ok(fx.md5(""))
    ensures r.Ok? ==> "properties" in body && terms.Some? && (body["properties"].Dict? || terms.value == [])
    ensures "properties" in body && !body["properties"].Dict? && terms.Some? && terms.value != [] ==>
      r.Err? && ((body["properties"].Str? || body["properties"].List?) <==> r.error.AttributeError?)
    ensures r.Ok? && body["properties"].Dict? && AllPresent(body["properties"].fields, terms.value) ==>
      Pieces(v, body["properties"].fields, terms.value, true).Ok?
      && r.value == fx.md5(Join(Pieces(v, body["properties"].fields, terms.value, true).value, "."))
    ensures r.Ok? && body["properties"].Dict? && !AllPresent(body["properties"].fields, terms.value) && "collection_id" in terms.value ==>
      var props := body["properties"].fields;
      r.value == fx.md5(PyStr(Get(props, "collection_id"), fx) + "." + PyStr(Get(props, "uri"), fx))
    ensures "properties" in body && body["properties"].Dict? && terms.Some?
            && !AllPresent(body["properties"].fields, terms.value) && "collection_id" !in terms.value ==>
      var uri := Get(body["properties"].fields, "uri");
      (uri.Str? ==> r == Ok(fx.md5(uri.s))) && (!uri.Str? ==> r == Err(AttributeError("encode")))
  {
    if "properties" !in body then Err(KeyError("properties"))
    else match body["properties"]
      case Dict(props) =>
        (match terms
         case None => Err(AttributeError("terms"))
         case Some(ts) =>
           if AllPresent(props, ts) then
             (match Pieces(v, props, ts, true)
              case Err(e) => Err(e)
              case Ok(ps) =>
                DottedIsJoin(ps);
                Ok(fx.md5(Tail(DotAppend("", ps)))))
           else if "collection_id" in ts then
             Ok(fx.md5(PyStr(Get(props, "collection_id"), fx) + "." + PyStr(Get(props, "uri"), fx)))
           else
             (match Get(props, "uri")
              case Str(u) => Ok(fx.md5(u))
              case _ => Err(AttributeError("encode"))))
      case other =>
        (match terms
         case None => Err(AttributeError("terms"))
         case Some(ts) =>
           if ts == [] then Ok(fx.md5(""))
           else if other.Str? || other.List? then Err(AttributeError("get"))
           else Err(TypeError("argument of type is not iterable")))
  }

  /** The contributions depend only on the terms' own values. */
  lemma {:induction false} PiecesOnlyTerms(v: Variant, d1: Body, d2: Body, terms: seq<string>, multi: bool)
    requires forall i :: 0 <= i < |terms| ==> (terms[i] in d1 <==> terms[i] in d2)
    requires forall i :: 0 <= i < |terms| && terms[i] in d1 ==> d1[terms[i]] == d2[terms[i]]
    ensures Pieces(v, d1, terms, multi) == Pieces(v, d2, terms, multi)
    decreases |terms|
  {
    if terms != [] {
      assert forall i :: 0 <= i < |terms[1..]| ==> terms[1..][i] == terms[i + 1];
      PiecesOnlyTerms(v, d1, d2, terms[1..], multi);
    }
  }

  /** When every term is present, the id depends only on the terms' values:
      two records whose properties agree on the terms get the same id,
      whatever else they hold. */
  lemma HashIdOnlyTerms(v: Variant, fx: Foreign, b1: Body, b2: Body, ts: seq<string>)
    requires "properties" in b1 && b1["properties"].Dict? && "properties" in b2 && b2["properties"].Dict?
    requires AllPresent(b1["properties"].fields, ts) && AllPresent(b2["properties"].fields, ts)
    requires forall i :: 0 <= i < |ts| ==> b1["properties"].fields[ts[i]] == b2["properties"].fields[ts[i]]
    ensures HashIdRun(v, fx, b1, Some(ts)) == HashIdRun(v, fx, b2, Some(ts))
  {
    PiecesOnlyTerms(v, b1["properties"].fields, b2["properties"].fields, ts, true);
  }

  /** An integer term makes the id fail as written, and is printed once
      corrected. */
  lemma IntTermFails(fx: Foreign, facet: string, i: int)
    ensures HashIdRun(AsWritten, fx, map["properties" := Dict(map[facet := Int(i)])], Some([facet])).Err?
    ensures HashIdRun(Corrected, fx, map["properties" := Dict(map[facet := Int(i)])], Some([facet])) == Ok(fx.md5(IntToStr(i)))
  {
    var props := map[facet := Int(i)];
    PiecesOne(AsWritten, props, facet, true);
    PiecesOne(Corrected, props, facet, true);
    assert Join([IntToStr(i)], ".") == IntToStr(i);
  }

  // ---------------------------------------------------------------- path parts

  /** `f"_dir{i}"`. */
  function DirKey(i: nat): string {
    "_dir" + NatToStr(i)
  }

  lemma DirKeyInjective(i: nat, j: nat)
    requires DirKey(i) == DirKey(j)
    ensures i == j
  {
    assert NatToStr(i) == DirKey(i)[4..];
    assert NatToStr(j) == DirKey(j)[4..];
    NatToStrInjective(i, j);
  }

  /** Every `_dir` key starts with an underscore. */
  lemma DirKeyUnderscore(i: nat)
    ensures |DirKey(i)| > 0 && DirKey(i)[0] == '_'
  {
  }

  /** `_dir1`, `_dir2`, … for the given parts, in order. */
  function Dirs(parts: seq<string>): (r: Body)
    ensures forall i :: 1 <= i <= |parts| ==> DirKey(i) in r && r[DirKey(i)] == Str(parts[i - 1])
    ensures forall k | k in r :: |k| > 0 && k[0] == '_'
    decreases |parts|
  {
    if parts == [] then map[]
    else
      var n := |parts|;
      var prev := Dirs(parts[..n - 1]);
      forall i | 1 <= i < n ensures DirKey(i) != DirKey(n) {
        if DirKey(i) == DirKey(n) { DirKeyInjective(i, n); }
      }
      forall i | 0 <= i < n - 1 ensures parts[..n - 1][i] == parts[i] {
      }
      DirKeyUnderscore(n);
      prev[DirKey(n) := Str(parts[n - 1])]
  }

  /** Every key is the `_dir` key of some part. */
  lemma {:induction false} DirsKeys(parts: seq<string>)
    ensures forall k | k in Dirs(parts) :: exists i :: 1 <= i <= |parts| && k == DirKey(i)
    decreases |parts|
  {
    if parts != [] {
      DirsKeys(parts[..|parts| - 1]);
    }
  }

  /** The `_dir` keys are exactly one per part. */
  lemma {:induction false} DirsCard(parts: seq<string>)
    ensures |Dirs(parts)| == |parts|
    decreases |parts|
  {
    if parts != [] {
      var n := |parts|;
      var prev := Dirs(parts[..n - 1]);
      DirsCard(parts[..n - 1]);
      assert DirKey(n) !in prev by {
        DirsKeys(parts[..n - 1]);
        forall i | 1 <= i <= n - 1 ensures DirKey(i) != DirKey(n) {
          if DirKey(i) == DirKey(n) { DirKeyInjective(i, n); }
        }
      }
      assert Dirs(parts) == prev[DirKey(n) := Str(parts[n - 1])];
    }
  }

  /** `list(path.parts)[skip:]` with Python's slice bounds. */
  function SkipParts(parts: seq<string>, skip: int): (r: seq<string>)
    ensures 0 <= skip <= |parts| ==> r == parts[skip..]
    ensures skip > |parts| ==> r == []
    ensures skip < 0 ==> r == parts[if |parts| + skip < 0 then 0 else |parts| + skip..]
  {
    if skip >= 0 then (if skip <= |parts| then parts[skip..] else [])
    else parts[if |parts| + skip < 0 then 0 else |parts| + skip..]
  }

  /** `PathPartsExtract.run` before its decorators: after skipping `skip`
      parts, the last part is `filename` and the others `_dir1.._dirN`; with
      no part left the `pop` fails. */
  function PathPartsRun(uri: string, skip: int): (r: Outcome<Body>)
    ensures var parts := SkipParts(Parts(ParsePath(uri)), skip);
      && (r.Err? <==> parts == [])
      && (r.Ok? ==> |r.value| == |parts|
                    && "filename" in r.value && r.value["filename"] == Str(parts[|parts| - 1])
                    && forall i :: 1 <= i < |parts| ==> DirKey(i) in r.value && r.value[DirKey(i)] == Str(parts[i - 1]))
  {
    var parts := SkipParts(Parts(ParsePath(uri)), skip);
    if parts == [] then Err(IndexError)
    else
      var n := |parts|;
      var dirs := Dirs(parts[..n - 1]);
      DirsCard(parts[..n - 1]);
      DirsKeys(parts[..n - 1]);
      assert "filename"[0] != '_';
      forall i | 0 <= i < n - 1 ensures parts[..n - 1][i] == parts[i] {
      }
      Ok(dirs["filename" := Str(parts[n - 1])])
  }

  // ---------------------------------------------------------------- categories

  /** `CategoriesExtract.run` before its decorators: the matching labels, each
      once, or `["data"]`, under the key spelled `"catagories"`. The list is
      built from a set; `order` is the order Python's set iteration gives. */
  function CategoriesRun(fx: Foreign, uri: string, cats: seq<Describers.Category>, order: seq<string>): (r: Body)
    requires forall i, j :: 0 <= i < j < |order| ==> order[i] != order[j]
    requires KeySet(order) == AssetCore.GetCategories(fx, uri, cats)
    ensures r.Keys == {"catagories"}
    ensures r["catagories"].List? && |r["catagories"].items| == |order|
    ensures forall l :: Str(l) in r["catagories"].items <==> l in AssetCore.GetCategories(fx, uri, cats)
  {
    var items := seq(|order|, i requires 0 <= i < |order| => Str(order[i]));
    assert forall l :: Str(l) in items <==> l in KeySet(order) by {
      forall l ensures Str(l) in items <==> l in KeySet(order) {
        if Str(l) in items {
          var i :| 0 <= i < |items| && items[i] == Str(l);
        }
        if l in KeySet(order) {
          var i :| 0 <= i < |order| && order[i] == l;
          assert items[i] == Str(l);
        }
      }
    }
    map["catagories" := List(items)]
  }
}
