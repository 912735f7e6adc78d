/** The message and document parsing of the inputs: RabbitMQ messages
    (stac_generator/plugins/inputs/rabbit_mq.py), Solr documents
    (stac_generator/plugins/inputs/solr.py and
    asset_scanner/plugins/input_plugins/solr_input.py), and the Solr query
    set-up and cursor paging. Broker and HTTP connections are not modelled:
    the decoded message and each Solr response are parameters. */
module Inputs {
  import opened Wrappers
  import opened Values
  import opened Strings
  import opened Paging

  // ---------------------------------------------------------------- rabbit

  /** The legacy text message `H:M:S:path:action:size:message`: the first
      three fields are the date, fields 3 to 5 the uri, action and size, and
      the rest, colons included, the message. Fewer than six fields fail. */
  function LegacyMessage(text: string): (r: Outcome<Body>)
    ensures var parts := Split(Strip(text), ':');
      && (r.Ok? <==> |parts| >= 6)
      && (r.Ok? ==> r.value == map["datetime" := Str(Join(parts[..3], ":")), "uri" := Str(parts[3]),
                                   "action" := Str(parts[4]), "filesize" := Str(parts[5]),
                                   "message" := Str(Join(parts[6..], ":"))])
  {
    var parts := Split(Strip(text), ':');
    if |parts| < 6 then Err(IndexError)
    else Ok(map["datetime" := Str(Join(parts[..3], ":")), "uri" := Str(parts[3]),
                "action" := Str(parts[4]), "filesize" := Str(parts[5]),
                "message" := Str(Join(parts[6..], ":"))])
  }

  /** `RabbitMQInput.decode_message`. `parsed` is what `json.loads` or, failing
      that, `ast.literal_eval` make of the text (None when both fail, which
      selects the legacy format). A message without `uri` takes it from
      `filepath`. */
  function DecodeMessage(parsed: Option<Value>, text: string): (r: Outcome<Body>)
    ensures parsed.None? ==> (r.Ok? <==> LegacyMessage(text).Ok?) && (r.Ok? ==> r == LegacyMessage(text))
    ensures parsed.Some? && parsed.value.Dict? && "uri" in parsed.value.fields ==> r == Ok(parsed.value.fields)
    ensures parsed.Some? && parsed.value.Dict? && "uri" !in parsed.value.fields ==>
      var m := parsed.value.fields;
      r == if "filepath" in m then Ok(m["uri" := m["filepath"]]) else Err(KeyError("filepath"))
    ensures r.Ok? ==> "uri" in r.value
  {
    var msg: Outcome<Body> :=
      match parsed
      case None => LegacyMessage(text)
      case Some(Dict(m)) => Ok(m)
      case Some(_) => Err(TypeError("message is not a dict"));
    match msg
    case Err(e) => Err(e)
    case Ok(m) =>
      if "uri" in m then Ok(m)
      else if "filepath" in m then Ok(m["uri" := m["filepath"]])
      else Err(KeyError("filepath"))
  }

  /** Writing a legacy message and decoding it gives back its fields; the
      message keeps its colons. */
  lemma LegacyRoundTrip(h: string, m: string, s: string, uri: string, action: string, size: string, message: string)
    requires ':' !in h && ':' !in m && ':' !in s && ':' !in uri && ':' !in action && ':' !in size
    requires var text := Join([h, m, s, uri, action, size] + Split(message, ':'), ":"); Strip(text) == text
    ensures var text := Join([h, m, s, uri, action, size] + Split(message, ':'), ":");
      LegacyMessage(text) == Ok(map["datetime" := Str(h + ":" + m + ":" + s), "uri" := Str(uri),
                                    "action" := Str(action), "filesize" := Str(size), "message" := Str(message)])
  {
    var tail := Split(message, ':');
    var parts := [h, m, s, uri, action, size] + tail;
    var text := Join(parts, ":");
    LegacyParts(h, m, s, uri, action, size, message);
    assert Split(Strip(text), ':') == parts;
    JoinThree(h, m, s);
    assert parts[..3] == [h, m, s];
    assert parts[6..] == tail;
    JoinSplit(message, ':');
    assert parts[3] == uri && parts[4] == action && parts[5] == size;
  }

  /** The written fields are the fields read back. */
  lemma LegacyParts(h: string, m: string, s: string, uri: string, action: string, size: string, message: string)
    requires ':' !in h && ':' !in m && ':' !in s && ':' !in uri && ':' !in action && ':' !in size
    ensures var parts := [h, m, s, uri, action, size] + Split(message, ':');
      Split(Join(parts, ":"), ':') == parts
  {
    var tail := Split(message, ':');
    var parts := [h, m, s, uri, action, size] + tail;
    forall i | 0 <= i < |parts| ensures ':' !in parts[i] {
      if i >= 6 { assert parts[i] == tail[i - 6]; }
    }
    SplitJoin(parts, ':');
  }

  /** Three fields joined with colons. */
  lemma JoinThree(h: string, m: string, s: string)
    ensures Join([h, m, s], ":") == h + ":" + m + ":" + s
  {
    assert [h, m, s][1..] == [m, s];
    assert [m, s][1..] == [s];
    assert Join([h, m, s], ":") == h + ":" + Join([m, s], ":");
    assert Join([m, s], ":") == m + ":" + Join([s], ":");
  }

  /** An extra term copied from the message: its key and output key. */
  datatype Term = Term(key: string, outputKey: string)

  /** The output keys of some extra terms. */
  function OutKeys(terms: seq<Term>): set<string> {
    set i | 0 <= i < |terms| :: terms[i].outputKey
  }

  /** The extra terms written over `output` in order, each as the source's
      value under its key: `message[key]` (AsWritten, a missing key raises)
      or `doc.get(key)` (Corrected, a missing key gives None). */
  function CopyTerms(output: Body, source: Body, terms: seq<Term>, missing: Variant): (r: Outcome<Body>)
    ensures missing.AsWritten? ==> (r.Ok? <==> forall i :: 0 <= i < |terms| ==> terms[i].key in source)
    ensures missing.Corrected? ==> r.Ok?
    decreases |terms|
  {
    if terms == [] then Ok(output)
    else
      var t := terms[0];
      if t.key !in source && missing.AsWritten? then Err(KeyError(t.key))
      else
        var r := CopyTerms(output[t.outputKey := Get(source, t.key)], source, terms[1..], missing);
        assert missing.AsWritten? ==> (r.Ok? <==> forall i :: 0 <= i < |terms| ==> terms[i].key in source) by {
          if missing.AsWritten? && (forall i :: 0 <= i < |terms[1..]| ==> terms[1..][i].key in source) {
            forall i | 0 <= i < |terms| ensures terms[i].key in source {
              if i > 0 { assert terms[i] == terms[1..][i - 1]; }
            }
          }
        }
        r
  }

  /** The copy adds exactly the terms' output keys; the last term writing an
      output key decides its value, and every other key keeps its value. */
  lemma {:induction false} CopyTermsResult(output: Body, source: Body, terms: seq<Term>, missing: Variant)
    requires CopyTerms(output, source, terms, missing).Ok?
    ensures var r := CopyTerms(output, source, terms, missing).value;
      && r.Keys == output.Keys + OutKeys(terms)
      && (forall i :: 0 <= i < |terms| && terms[i].outputKey !in OutKeys(terms[i + 1..]) ==>
            r[terms[i].outputKey] == Get(source, terms[i].key))
      && (forall k | k in output && k !in OutKeys(terms) :: r[k] == output[k])
    decreases |terms|
  {
    if terms != [] {
      var t := terms[0];
      var o := output[t.outputKey := Get(source, t.key)];
      OutKeysCons(terms);
      CopyTermsResult(o, source, terms[1..], missing);
      var r := CopyTerms(output, source, terms, missing).value;
      assert r == CopyTerms(o, source, terms[1..], missing).value;
      forall i | 0 <= i < |terms| && terms[i].outputKey !in OutKeys(terms[i + 1..])
        ensures r[terms[i].outputKey] == Get(source, terms[i].key)
      {
        if i > 0 {
          assert terms[1..][i - 1] == terms[i];
          assert terms[1..][i - 1 + 1..] == terms[i + 1..];
        } else {
          assert terms[1..] == terms[i + 1..];
        }
      }
    }
  }

  /** The output keys of a non-empty list: the first term's and the rest's. */
  lemma OutKeysCons(terms: seq<Term>)
    requires terms != []
    ensures OutKeys(terms) == {terms[0].outputKey} + OutKeys(terms[1..])
  {
    forall k | k in OutKeys(terms) ensures k in {terms[0].outputKey} + OutKeys(terms[1..]) {
      var i :| 0 <= i < |terms| && terms[i].outputKey == k;
      if i > 0 { assert terms[1..][i - 1] == terms[i]; }
    }
    forall k | k in OutKeys(terms[1..]) ensures k in OutKeys(terms) {
      var i :| 0 <= i < |terms[1..]| && terms[1..][i].outputKey == k;
      assert terms[i + 1].outputKey == k;
    }
  }

  /** What the RabbitMQ `callback` does with one delivery: acknowledge an
      undecodable legacy message without processing it, or process the
      output and then acknowledge, or raise. */
  datatype Delivery = AckedOnly | Processed(output: Body) | Raised(error: Error)

  /** `RabbitMQInput.callback`: `{"uri": message[uri_term]}` and each extra
      term's `message[key]` under its output key. Only an IndexError from
      decoding is caught; a missing term raises before anything is
      acknowledged. */
  function Callback(decoded: Outcome<Body>, uriTerm: string, terms: seq<Term>): (r: Delivery)
    ensures decoded == Err(IndexError) ==> r == AckedOnly
    ensures decoded.Err? && decoded.error != IndexError ==> r == Raised(decoded.error)
    ensures decoded.Ok? && uriTerm !in decoded.value ==> r == Raised(KeyError(uriTerm))
    ensures r.Processed? ==>
      decoded.Ok? && uriTerm in decoded.value
      && (forall i :: 0 <= i < |terms| ==> terms[i].key in decoded.value)
      && Ok(r.output) == CopyTerms(map["uri" := decoded.value[uriTerm]], decoded.value, terms, AsWritten)
    ensures decoded.Ok? && uriTerm in decoded.value && (forall i :: 0 <= i < |terms| ==> terms[i].key in decoded.value) ==>
      r.Processed?
  {
    match decoded
    case Err(e) => if e == IndexError then AckedOnly else Raised(e)
    case Ok(msg) =>
      if uriTerm !in msg then Raised(KeyError(uriTerm))
      else
        match CopyTerms(map["uri" := msg[uriTerm]], msg, terms, AsWritten)
        case Err(e) => Raised(e)
        case Ok(out) => Processed(out)
  }

  // ---------------------------------------------------------------- solr

  /** The number of dots before the first `|`. */
  function DotsBeforeBar(id: string): nat {
    Count(Split(id, '|')[0], '.')
  }

  /** `id.replace(".", "/", id.split("|")[0].count(".") - 1)`: the id of a
      Solr document turned back into a path. With no dot before the `|` the
      count is -1, and every dot is replaced. */
  function SolrPath(id: string): (r: string)
    ensures |r| == |id|
    ensures forall i :: 0 <= i < |id| && id[i] != '.' ==> r[i] == id[i]
  {
    var r := Replace(id, '.', '/', DotsBeforeBar(id) - 1);
    forall i | 0 <= i < |id| && id[i] != '.' ensures r[i] == id[i] {
      ReplaceAt(id, '.', '/', DotsBeforeBar(id) - 1, i);
    }
    r
  }

  /** Exactly the first `n - 1` dots of the id become slashes, where `n`
      counts the dots before the first `|`; with `n == 0`, every dot does. */
  lemma SolrPathAt(id: string, i: nat)
    requires i < |id|
    ensures var n := DotsBeforeBar(id);
      SolrPath(id)[i] == if id[i] == '.' && (n == 0 || Count(id[..i], '.') < n - 1) then '/' else id[i]
  {
    ReplaceAt(id, '.', '/', DotsBeforeBar(id) - 1, i);
  }

  /** With one dot before the `|`, nothing is replaced. */
  lemma SolrPathOneDot(id: string)
    requires DotsBeforeBar(id) == 1
    ensures SolrPath(id) == id
  {
    forall i | 0 <= i < |id| ensures SolrPath(id)[i] == id[i] {
      SolrPathAt(id, i);
    }
  }

  /** A file id `dir.name.ext` keeps the dot of its extension and turns the
      other into a slash: `a.b.nc` becomes `a/b.nc`. */
  lemma SolrPathKeepsExtension(dir: string, name: string, ext: string)
    requires '.' !in dir && '.' !in name && '.' !in ext
    requires '|' !in dir && '|' !in name && '|' !in ext
    ensures SolrPath(dir + "." + name + "." + ext) == dir + "/" + name + "." + ext
  {
    var id := dir + "." + name + "." + ext;
    var want := dir + "/" + name + "." + ext;
    var d := |dir|;
    var e := |dir| + 1 + |name|;
    assert Split(id, '|') == [id];
    DotsInId(dir, name, ext);
    assert id[..d] == dir;
    assert id[..e] == dir + "." + name;
    CountAbsent(dir, '.');
    CountAppend(dir, ".", '.');
    CountAppend(dir + ".", name, '.');
    CountAbsent(name, '.');
    forall i | 0 <= i < |id| ensures SolrPath(id)[i] == want[i] {
      SolrPathAt(id, i);
    }
  }

  /** `dir.name.ext` with dot-free parts has two dots. */
  lemma DotsInId(dir: string, name: string, ext: string)
    requires '.' !in dir && '.' !in name && '.' !in ext
    ensures Count(dir + "." + name + "." + ext, '.') == 2
  {
    CountAbsent(dir, '.');
    CountAbsent(name, '.');
    CountAbsent(ext, '.');
    CountAppend(dir, ".", '.');
    CountAppend(dir + ".", name, '.');
    CountAppend(dir + "." + name, ".", '.');
    CountAppend(dir + "." + name + ".", ext, '.');
  }

  /** `SolrInput.run` for one document: the path under `uri`, then each extra
      term as `doc.get(key)`. A document without a string `id` fails on
      `replace`. */
  function SolrOutput(doc: Body, terms: seq<Term>): (r: Outcome<Body>)
    ensures (Get(doc, "id").Str?) <==> r.Ok?
    ensures r.Ok? ==> Ok(r.value) == CopyTerms(map["uri" := Str(SolrPath(doc["id"].s))], doc, terms, Corrected)
  {
    match Get(doc, "id")
    case Str(id) => CopyTerms(map["uri" := Str(SolrPath(id))], doc, terms, Corrected)
    case _ => Err(AttributeError("replace"))
  }

  /** `SolrInputPlugin.__init__`: the select URL and the query parameters,
      each taken from `search_params` or defaulted; `rows` reads the
      `chunk_size` option, and `cursorMark` always starts at `*`. */
  datatype SolrQuery = SolrQuery(url: string, params: Body)

  function SolrSetup(fx: Foreign, kwargs: Body): (r: Outcome<SolrQuery>)
    ensures r.Ok? <==> !("search_params" in kwargs && !kwargs["search_params"].Dict?)
    ensures r.Ok? ==>
      var core := if "core" in kwargs then kwargs["core"] else Str("files");
      r.value.url == "http://" + PyStr(Get(kwargs, "index_node"), fx) + "/solr/" + PyStr(core, fx) + "/select"
    ensures r.Ok? ==> r.value.params == SolrParams(if "search_params" in kwargs then kwargs["search_params"].fields else map[])
  {
    var core := if "core" in kwargs then kwargs["core"] else Str("files");
    var url := "http://" + PyStr(Get(kwargs, "index_node"), fx) + "/solr/" + PyStr(core, fx) + "/select";
    if "search_params" in kwargs && !kwargs["search_params"].Dict? then Err(AttributeError("get"))
    else Ok(SolrQuery(url, SolrParams(if "search_params" in kwargs then kwargs["search_params"].fields else map[])))
  }

  /** The query parameters built from the `search_params` option: each one
      configured there, or its default; the cursor always starts at `*`. */
  function SolrParams(sp: Body): (r: Body)
    ensures r.Keys == {"indent", "q", "wt", "rows", "sort", "cursorMark"}
    ensures "indent" in sp ==> r["indent"] == sp["indent"]
    ensures "indent" !in sp ==> r["indent"] == Str("on")
    ensures "q" in sp ==> r["q"] == sp["q"]
    ensures "q" !in sp ==> r["q"] == Str("*:*")
    ensures "wt" in sp ==> r["wt"] == sp["wt"]
    ensures "wt" !in sp ==> r["wt"] == Str("json")
    ensures "chunk_size" in sp ==> r["rows"] == sp["chunk_size"]
    ensures "chunk_size" !in sp ==> r["rows"] == Int(10000)
    ensures "sort" in sp ==> r["sort"] == sp["sort"]
    ensures "sort" !in sp ==> r["sort"] == Str("id asc")
    ensures r["cursorMark"] == Str("*")
  {
    map[
      "indent" := if "indent" in sp then sp["indent"] else Str("on"),
      "q" := if "q" in sp then sp["q"] else Str("*:*"),
      "wt" := if "wt" in sp then sp["wt"] else Str("json"),
      "rows" := if "chunk_size" in sp then sp["chunk_size"] else Int(10000),
      "sort" := if "sort" in sp then sp["sort"] else Str("id asc"),
      "cursorMark" := Str("*")]
  }

  /** One Solr response: its documents and `nextCursorMark`. */
  datatype SolrResponse = SolrResponse(docs: seq<Value>, nextCursor: string)

  /** `iter_docs` as a paging: a page with documents continues at its
      `nextCursorMark`; the first empty page ends the iteration. */
  function SolrPage(search: string -> SolrResponse, cursor: string): (p: Page<string>)
    ensures p.items == search(cursor).docs
    ensures p.next.None? <==> search(cursor).docs == []
    ensures p.next.Some? ==> p.next.value == search(cursor).nextCursor
  {
    var resp := search(cursor);
    Page(resp.docs, if resp.docs == [] then None else Some(resp.nextCursor))
  }

  /** `iter_docs`'s request with the search fixed, as the paging loop calls it. */
  function SolrPager(search: string -> SolrResponse): string -> Page<string> {
    cursor => SolrPage(search, cursor)
  }

  /** The documents `iter_docs` yields from the first cursor `*`. */
  function SolrDocs(search: string -> SolrResponse, fuel: nat): (r: Option<seq<Value>>)
    ensures search("*").docs == [] ==> r == Some([])
    ensures r.Some? ==> |search("*").docs| <= |r.value| && r.value[..|search("*").docs|] == search("*").docs
  {
    Collect(SolrPager(search), "*", fuel)
  }
}
