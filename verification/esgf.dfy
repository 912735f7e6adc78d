/** The ESGF Solr extraction method
    (asset_scanner/plugins/extraction_methods/esgf_solar_extract.py): the
    file's Solr document is flattened, its access links, size, name,
    checksum and ids are moved into the item info, and the dataset document
    adds the dataset-only keys and the bounding box. The Solr request is a
    parameter: it maps an id and a core to the documents found. */
module Esgf {
  import opened Wrappers
  import opened Values
  import opened Strings

  /** The Solr query: an id and a core name, answered with the documents. */
  type SolrSearch = (string, string) -> seq<Body>

  /** `format_item`: a one-element list stands for its element. */
  function FormatItem(v: Value): (r: Value)
    ensures v.List? && |v.items| == 1 ==> r == v.items[0]
    ensures !(v.List? && |v.items| == 1) ==> r == v
  {
    match v
    case List(xs) => if |xs| == 1 then xs[0] else v
    case _ => v
  }

  /** The metadata `get_metadata` builds from the first document. */
  function FormatDoc(doc: Body): (r: Body)
    ensures r.Keys == doc.Keys
    ensures forall k | k in doc :: r[k] == FormatItem(doc[k])
  {
    map k | k in doc :: FormatItem(doc[k])
  }

  /** Only one-element lists change, so formatting twice is formatting once
      except for a list nested in a one-element list. */
  lemma FormatItemTwice(v: Value)
    requires !(v.List? && |v.items| == 1 && v.items[0].List? && |v.items[0].items| == 1)
    ensures FormatItem(FormatItem(v)) == FormatItem(v)
  {
  }

  /** `get_metadata`: the formatted first document of the answer; no
      document is an IndexError. */
  function Metadata(search: SolrSearch, id: string, core: string): (r: Outcome<Body>)
    ensures r.Ok? <==> search(id, core) != []
    ensures r.Ok? ==> r.value == FormatDoc(search(id, core)[0])
  {
    var docs := search(id, core);
    if docs == [] then Err(IndexError) else Ok(FormatDoc(docs[0]))
  }

  /** `metadata.pop(key)`: the value and the rest, or a KeyError. */
  datatype Popped = Popped(value: Value, rest: Body)

  function Pop(m: Body, key: string): (r: Outcome<Popped>)
    ensures r.Ok? <==> key in m
    ensures r.Ok? ==> r.value.value == m[key] && r.value.rest == m - {key}
    ensures r.Err? ==> r.error == KeyError(key)
  {
    if key in m then Ok(Popped(m[key], m - {key})) else Err(KeyError(key))
  }

  // ---------------------------------------------------------------- urls

  /** One access link `url|mime|method`, after splitting. */
  datatype Link = Link(url: string, access: string)

  /** The links of the `url` field. Each entry is split on `|` and must give
      exactly three parts (a ValueError otherwise); a non-string entry has no
      `split`. A string is iterated character by character, and every
      character splits into fewer than three parts (AsWritten); treating it
      as the one link it is is the evident intent (Corrected). */
  function Links(v: Variant, urls: Value): (r: Outcome<seq<Link>>)
    ensures urls.List? ==>
      (r.Ok? <==> forall i :: 0 <= i < |urls.items| ==> urls.items[i].Str? && |Split(urls.items[i].s, '|')| == 3)
    ensures urls.List? && r.Ok? ==> r == SplitAll(urls.items)
    ensures v.AsWritten? && urls.Str? && urls.s != "" ==> r.Err?
    ensures v.Corrected? && urls.Str? ==> r == SplitAll([urls])
  {
    match urls
    case List(items) => SplitAll(items)
    case Str(s) =>
      if v.Corrected? then SplitAll([urls])
      else if s == "" then Ok([])
      else Err(ValueError("not enough values to unpack"))
    case _ => Err(TypeError("not iterable"))
  }

  /** The entries split in order: the first non-string entry fails first,
      since every entry is split before any is unpacked. */
  function SplitAll(items: seq<Value>): (r: Outcome<seq<Link>>)
    ensures r.Ok? <==> forall i :: 0 <= i < |items| ==> items[i].Str? && |Split(items[i].s, '|')| == 3
    ensures r.Ok? ==> |r.value| == |items|
    ensures r.Ok? ==> forall i :: 0 <= i < |r.value| ==>
      var parts := Split(items[i].s, '|');
      r.value[i] == Link(parts[0], parts[2])
  {
    if exists i :: 0 <= i < |items| && !items[i].Str? then Err(AttributeError("split"))
    else if exists i :: 0 <= i < |items| && |Split(items[i].s, '|')| != 3 then Err(ValueError("wrong number of values to unpack"))
    else Ok(seq(|items|, i requires 0 <= i < |items| => var parts := Split(items[i].s, '|'); Link(parts[0], parts[2])))
  }

  /** The methods of some links. */
  function Methods(links: seq<Link>): set<string> {
    set i | 0 <= i < |links| :: links[i].access
  }

  /** The dict comprehension `{method: url for ...}`: one entry per method,
      the url of the last link with that method. */
  function Hrefs(links: seq<Link>): (r: map<string, string>)
    ensures r.Keys == Methods(links)
    decreases |links|
  {
    if links == [] then map[]
    else
      var n := |links| - 1;
      var r := Hrefs(links[..n])[links[n].access := links[n].url];
      assert r.Keys == Methods(links) by {
        forall m | m in Methods(links) ensures m in r.Keys {
          var i :| 0 <= i < |links| && links[i].access == m;
          if i < n { assert links[..n][i].access == m; }
        }
        forall m | m in Methods(links[..n]) ensures m in Methods(links) {
          var i :| 0 <= i < n && links[..n][i].access == m;
          assert links[i].access == m;
        }
      }
      r
  }

  /** The url kept for a method is that of the last link with the method. */
  lemma {:induction false} HrefsLastWins(links: seq<Link>, i: nat)
    requires i < |links|
    requires forall j :: i < j < |links| ==> links[j].access != links[i].access
    ensures Hrefs(links)[links[i].access] == links[i].url
    decreases |links|
  {
    var n := |links| - 1;
    if i < n {
      assert links[..n][i] == links[i];
      HrefsLastWins(links[..n], i);
    }
  }

  /** `extract_url`: the raw `url` field as `location`, the HTTPServer link as
      `href`, and every other method's link as `{method}_url`. */
  function ExtractUrl(v: Variant, info: Body, metadata: Body): (r: Outcome<(Body, Body)>)
    ensures "url" !in metadata ==> r == Err(KeyError("url"))
    ensures r.Ok? ==> "url" in metadata && Links(v, metadata["url"]).Ok? && r.value.1 == metadata - {"url"}
    ensures r.Ok? ==> var hrefs := Hrefs(Links(v, metadata["url"]).value);
      && "HTTPServer" in hrefs
      && r.value.0 == UrlKeys(info["location" := metadata["url"]]["href" := Str(hrefs["HTTPServer"])], hrefs - {"HTTPServer"})
    ensures ("url" in metadata && Links(v, metadata["url"]).Ok? &&
             "HTTPServer" !in Methods(Links(v, metadata["url"]).value)) ==> r == Err(KeyError("HTTPServer"))
  {
    var p :- Pop(metadata, "url");
    var links :- Links(v, p.value);
    var hrefs := Hrefs(links);
    if "HTTPServer" !in hrefs then Err(KeyError("HTTPServer"))
    else
      var withHref := info["location" := p.value]["href" := Str(hrefs["HTTPServer"])];
      Ok((UrlKeys(withHref, hrefs - {"HTTPServer"}), p.rest))
  }

  /** `info[f"{method}_url"] = url` for every remaining method. */
  function UrlKeys(info: Body, hrefs: map<string, string>): (r: Body)
    ensures r.Keys == info.Keys + set m | m in hrefs :: m + "_url"
    ensures forall m | m in hrefs :: r[m + "_url"] == Str(hrefs[m])
    ensures forall k | k in info && !(|k| >= 4 && k[|k| - 4..] == "_url" && k[..|k| - 4] in hrefs) :: r[k] == info[k]
  {
    forall m | m in hrefs ensures (m + "_url")[..|m|] == m && (m + "_url")[|m|..] == "_url" { }
    map k | k in info.Keys + (set m | m in hrefs :: m + "_url") ::
      if |k| >= 4 && k[|k| - 4..] == "_url" && k[..|k| - 4] in hrefs then Str(hrefs[k[..|k| - 4]])
      else info[k]
  }

  /** Three `|`-free fields joined with `|` split back into those fields. */
  lemma ThreeParts(a: string, b: string, c: string)
    requires '|' !in a && '|' !in b && '|' !in c
    ensures Split(a + "|" + b + "|" + c, '|') == [a, b, c]
  {
    var parts := [a, b, c];
    assert Join([c], "|") == c;
    assert Join([b, c], "|") == b + "|" + c by { assert [b, c][1..] == [c]; }
    assert Join(parts, "|") == a + "|" + (b + "|" + c) by { assert parts[1..] == [b, c]; }
    assert a + "|" + (b + "|" + c) == a + "|" + b + "|" + c;
    assert forall i :: 0 <= i < |parts| ==> '|' !in parts[i];
    SplitJoin(parts, '|');
  }

  /** A file with a single access link fails: the one-element list has been
      flattened to its string, whose characters do not unpack into three
      parts. Taking the string as the one link gives its `href`. */
  lemma SingleLinkFails(info: Body, metadata: Body, link: string)
    requires link != ""
    requires "url" in metadata && metadata["url"] == FormatItem(List([Str(link)]))
    ensures ExtractUrl(AsWritten, info, metadata).Err?
  {
  }

  /** With the corrected reading, the flattened single link is read as the
      one link it is, so its url and access method survive. */
  lemma SingleLinkCorrected(url: string, mime: string, access: string)
    requires '|' !in url && '|' !in mime && '|' !in access
    ensures Links(Corrected, FormatItem(List([Str(url + "|" + mime + "|" + access)]))) == Ok([Link(url, access)])
  {
    ThreeParts(url, mime, access);
    OneLink(url + "|" + mime + "|" + access, url, mime, access);
  }

  /** One well-formed link string, taken as the one link it is. */
  lemma OneLink(link: string, url: string, mime: string, access: string)
    requires Split(link, '|') == [url, mime, access]
    ensures Links(Corrected, Str(link)) == Ok([Link(url, access)])
  {
    var r := SplitAll([Str(link)]);
    assert r.Ok?;
    assert |r.value| == 1 && r.value[0] == Link(url, access);
    assert r.value == [Link(url, access)];
  }

  // ---------------------------------------------------------------- names

  /** The index of the last `c` in `s`. */
  function RFind(s: string, c: char): (r: Option<nat>)
    ensures r.None? <==> c !in s
    ensures r.Some? ==> r.value < |s| && s[r.value] == c && c !in s[r.value + 1..]
  {
    if |s| == 0 then None
    else if s[|s| - 1] == c then Some(|s| - 1)
    else
      var r := RFind(s[..|s| - 1], c);
      assert s == s[..|s| - 1] + [s[|s| - 1]];
      r
  }

  /** `os.path.splitext` for POSIX paths: the extension is the last dot of the
      last path component and what follows it, unless only dots precede it in
      that component (so `.bashrc` has none). */
  function Splitext(p: string): (r: (string, string))
    ensures r.0 + r.1 == p
    ensures r.1 != "" ==> r.1[0] == '.' && '.' !in r.1[1..] && '/' !in r.1
  {
    match RFind(p, '.')
    case None => (p, "")
    case Some(d) =>
      var start := match RFind(p, '/') case None => 0 case Some(s) => s + 1;
      if start <= d && exists k :: start <= k < d && p[k] != '.' then
        assert p[..d] + p[d..] == p;
        assert p[d..][1..] == p[d + 1..];
        (p[..d], p[d..])
      else (p, "")
  }

  /** There is an extension exactly when the last path component has a dot
      after some other character. */
  lemma SplitextHasExtension(p: string)
    ensures Splitext(p).1 != "" <==>
      exists i, j :: 0 <= i < j < |p| && p[i] != '.' && p[j] == '.' && '/' !in p[i..]
  {
    if Splitext(p).1 != "" {
      var d := RFind(p, '.').value;
      var start := match RFind(p, '/') case None => 0 case Some(s) => s + 1;
      var k :| start <= k < d && p[k] != '.';
      assert '/' !in p[k..];
    }
    if exists i, j :: 0 <= i < j < |p| && p[i] != '.' && p[j] == '.' && '/' !in p[i..] {
      var i, j :| 0 <= i < j < |p| && p[i] != '.' && p[j] == '.' && '/' !in p[i..];
      var d := RFind(p, '.').value;
      var start := match RFind(p, '/') case None => 0 case Some(s) => s + 1;
      if RFind(p, '/').Some? {
        var s := RFind(p, '/').value;
      }
      assert start <= i < d;
    }
  }

  /** `extract_filename`: the popped `title` as `filename`, and its
      extension. A title that is not a string has no extension. */
  function ExtractFilename(info: Body, metadata: Body): (r: Outcome<(Body, Body)>)
    ensures r.Ok? <==> "title" in metadata && metadata["title"].Str?
    ensures r.Ok? ==> r.value == (info["filename" := metadata["title"]]["extension" := Str(Splitext(metadata["title"].s).1)],
                                 metadata - {"title"})
  {
    var p :- Pop(metadata, "title");
    match p.value
    case Str(name) => Ok((info["filename" := p.value]["extension" := Str(Splitext(name).1)], p.rest))
    case _ => Err(TypeError("expected str"))
  }

  // ---------------------------------------------------------------- moves

  /** `self.info[key] = metadata.pop(key)`. */
  function Move(info: Body, metadata: Body, key: string): (r: Outcome<(Body, Body)>)
    ensures r.Ok? <==> key in metadata
    ensures r.Ok? ==> r.value == (info[key := metadata[key]], metadata - {key})
  {
    var p :- Pop(metadata, key);
    Ok((info[key := p.value], p.rest))
  }

  /** The fields that `remove_fields` drops. */
  const DroppedFields: set<string> := {"type", "version", "_timestamp", "score", "_version_"}

  /** `remove_fields`: drops the listed keys, ignoring absent ones. */
  function RemoveFields(metadata: Body): (r: Body)
    ensures r.Keys == metadata.Keys - DroppedFields
    ensures forall k | k in r :: r[k] == metadata[k]
  {
    metadata - DroppedFields
  }

  /** `extract_properties`: the remaining metadata, with the popped `id` as
      `file_id`, becomes `properties`. */
  function ExtractProperties(info: Body, metadata: Body): (r: Outcome<Body>)
    ensures r.Ok? <==> "id" in metadata
    ensures r.Ok? ==> r.value == info["properties" := Dict((metadata - {"id"})["file_id" := metadata["id"]])]
  {
    var p :- Pop(metadata, "id");
    Ok(info["properties" := Dict(p.rest["file_id" := p.value])])
  }

  // ---------------------------------------------------------------- dataset

  /** The keys only the dataset document has, copied when present. */
  const DatasetKeys: seq<string> := ["access", "height_units", "height_top", "height_bottom", "instance_id", "master_id", "url"]

  /** The bounding box from the dataset's four `*_degrees` keys, all needed.
      AsWritten puts west under `max_lon` and east under `min_lon`; the
      evident intent is the reverse. */
  function DatasetBbox(v: Variant, dataset: Body): (r: Option<Body>)
    ensures r.Some? <==> (forall k | k in {"south_degrees", "west_degrees", "north_degrees", "east_degrees"} :: k in dataset)
    ensures r.Some? ==> r.value.Keys == BboxKeys
    ensures r.Some? ==> r.value["min_lat"] == dataset["south_degrees"] && r.value["max_lat"] == dataset["north_degrees"]
    ensures r.Some? && v.AsWritten? ==> r.value["min_lon"] == dataset["east_degrees"] && r.value["max_lon"] == dataset["west_degrees"]
    ensures r.Some? && v.Corrected? ==> r.value["min_lon"] == dataset["west_degrees"] && r.value["max_lon"] == dataset["east_degrees"]
  {
    if "south_degrees" in dataset && "west_degrees" in dataset && "north_degrees" in dataset && "east_degrees" in dataset then
      var west := dataset["west_degrees"];
      var east := dataset["east_degrees"];
      Some(map["min_lat" := dataset["south_degrees"], "max_lat" := dataset["north_degrees"],
               "min_lon" := if v.AsWritten? then east else west,
               "max_lon" := if v.AsWritten? then west else east])
    else None
  }

  /** The keys of the bounding box. */
  const BboxKeys: set<string> := {"min_lat", "max_lat", "min_lon", "max_lon"}

  /** Keeps the dataset-only keys of the dataset document that are present. */
  function CopyPresent(props: Body, dataset: Body, keys: seq<string>): (r: Body)
    ensures r.Keys == props.Keys + (set i | 0 <= i < |keys| && keys[i] in dataset :: keys[i])
    ensures forall i :: 0 <= i < |keys| && keys[i] in dataset ==> r[keys[i]] == dataset[keys[i]]
    ensures forall k | k in props && k !in keys :: r[k] == props[k]
  {
    var copied := set i | 0 <= i < |keys| && keys[i] in dataset :: keys[i];
    map k | k in props.Keys + copied :: if k in copied then dataset[k] else props[k]
  }

  /** `get_item_info` on the properties: the dataset document, found by
      `dataset_id`, adds its dataset-only keys and, when it has all four
      degree keys, the bounding box. The lookup goes through `lru_cache`,
      which needs a hashable `dataset_id`. */
  function ItemInfo(v: Variant, search: SolrSearch, props: Body, fx: Foreign): (r: Outcome<Body>)
    ensures "dataset_id" in props && !Hashable(props["dataset_id"]) ==> r == Err(TypeError("unhashable type"))
    ensures r.Ok? <==> "dataset_id" in props && Hashable(props["dataset_id"])
                       && search(PyStr(props["dataset_id"], fx), "datasets") != []
    ensures r.Ok? ==>
      var dataset := FormatDoc(search(PyStr(props["dataset_id"], fx), "datasets")[0]);
      var copied := CopyPresent(props, dataset, DatasetKeys);
      r.value == match DatasetBbox(v, dataset) case None => copied case Some(b) => copied + b
    ensures r.Ok? ==> forall k | k in props && k !in DatasetKeys && k !in BboxKeys :: k in r.value && r.value[k] == props[k]
  {
    if "dataset_id" !in props then Err(KeyError("dataset_id"))
    else if !Hashable(props["dataset_id"]) then Err(TypeError("unhashable type"))
    else
      var dataset :- Metadata(search, PyStr(props["dataset_id"], fx), "datasets");
      var copied := CopyPresent(props, dataset, DatasetKeys);
      match DatasetBbox(v, dataset)
      case None => Ok(copied)
      case Some(b) => Ok(copied + b)
  }

  /** The longitudes come out swapped: a dataset from west 10 to east 20 gets
      `min_lon` 20 and `max_lon` 10, so `min_lon > max_lon`. */
  lemma LongitudesSwapped(dataset: Body)
    requires dataset == map["south_degrees" := Int(-5), "west_degrees" := Int(10),
                            "north_degrees" := Int(5), "east_degrees" := Int(20)]
    ensures var b := DatasetBbox(AsWritten, dataset).value;
      b["min_lon"] == Int(20) && b["max_lon"] == Int(10)
    ensures var b := DatasetBbox(Corrected, dataset).value;
      b["min_lon"] == Int(10) && b["max_lon"] == Int(20)
  {
  }

  /** With the corrected reading, each bound comes from the matching edge:
      whenever west <= east, `min_lon <= max_lon`. */
  lemma CorrectedBboxOrdered(dataset: Body)
    requires forall k | k in {"south_degrees", "west_degrees", "north_degrees", "east_degrees"} :: k in dataset
    requires dataset["west_degrees"].Int? && dataset["east_degrees"].Int?
    requires dataset["west_degrees"].i <= dataset["east_degrees"].i
    ensures var b := DatasetBbox(Corrected, dataset).value;
      b["min_lon"].Int? && b["max_lon"].Int? && b["min_lon"].i <= b["max_lon"].i
  {
  }

  // ---------------------------------------------------------------- run

  /** The file-level steps of `run`, in order: url, size, filename, checksum
      and ids. The info gains those entries; what is left of the metadata is
      returned with it. */
  function FileInfo(v: Variant, info: Body, metadata: Body): (r: Outcome<(Body, Body)>)
    ensures r.Ok? ==>
      && "url" in metadata && "size" in metadata && "title" in metadata && "checksum" in metadata
      && "checksum_type" in metadata && "master_id" in metadata && "instance_id" in metadata && "tracking_id" in metadata
    ensures r.Ok? ==> var out := r.value.0;
      && "href" in out && "location" in out && "size" in out && "filename" in out && "extension" in out
      && "checksum" in out && "checksum_type" in out && "master_id" in out && "instance_id" in out && "tracking_id" in out
    ensures r.Ok? ==> info.Keys <= r.value.0.Keys
    ensures r.Ok? ==> forall k | k in r.value.1 :: k in metadata && r.value.1[k] == metadata[k]
  {
    var u :- ExtractUrl(v, info, metadata);
    var s :- Move(u.0, u.1, "size");
    var f :- ExtractFilename(s.0, s.1);
    var c :- Move(f.0, f.1, "checksum");
    var t :- Move(c.0, c.1, "checksum_type");
    var m :- Move(t.0, t.1, "master_id");
    var i :- Move(m.0, m.1, "instance_id");
    var k :- Move(i.0, i.1, "tracking_id");
    Ok(k)
  }

  /** `file_id` is neither a dataset-only key nor a bounding-box key, so the
      dataset info never overwrites it. */
  lemma FileIdKept()
    ensures "file_id" !in DatasetKeys && "file_id" !in BboxKeys
  {
    var f := "file_id";
    assert |f| == 7 && f[0] == 'f';
    forall i | 0 <= i < |DatasetKeys| ensures DatasetKeys[i] != f {
      assert |DatasetKeys[i]| != 7;
    }
    forall k | k in BboxKeys ensures k != f {
      assert k[0] == 'm';
    }
  }

  /** The steps of `run` after the file document is found: the file-level
      steps, the field removal, `properties` from what is left, and the
      dataset info. */
  function Steps(v: Variant, info: Body, metadata: Body, search: SolrSearch, fx: Foreign): (r: Outcome<Body>)
    ensures r.Ok? ==> FileInfo(v, info, metadata).Ok? && "id" in metadata
    ensures r.Ok? ==> FileInfo(v, info, metadata).value.0.Keys + {"properties"} == r.value.Keys
    ensures r.Ok? ==>
      && r.value["properties"].Dict? && "file_id" in r.value["properties"].fields
      && r.value["properties"].fields["file_id"] == metadata["id"]
  {
    var c :- FileInfo(v, info, metadata);
    var withProps :- ExtractProperties(c.0, RemoveFields(c.1));
    var props := withProps["properties"].fields;
    var updated :- ItemInfo(v, search, props, fx);
    FileIdKept();
    Ok(withProps["properties" := Dict(updated)])
  }

  /** `ESGFSolrExtract.run`: the uri is turned back into a Solr id and the
      file document is fetched before the steps run. `info` is the
      processor's `info` attribute, which only exists when configured (None:
      AttributeError). */
  function Run(v: Variant, info: Option<Body>, core: string, search: SolrSearch, fx: Foreign, uri: string): (r: Outcome<Body>)
    ensures search(Replace(uri, '/', '.', -1), core) == [] ==> r == Err(IndexError)
    ensures search(Replace(uri, '/', '.', -1), core) != [] ==>
      var doc := FormatDoc(search(Replace(uri, '/', '.', -1), core)[0]);
      r == if "url" !in doc then Err(KeyError("url"))
           else if info.None? then Err(AttributeError("info"))
           else Steps(v, info.value, doc, search, fx)
  {
    var id := Replace(uri, '/', '.', -1);
    var metadata :- Metadata(search, id, core);
    if "url" !in metadata then Err(KeyError("url"))
    else if info.None? then Err(AttributeError("info"))
    else Steps(v, info.value, metadata, search, fx)
  }

  /** Every `/` of the uri becomes `.` in the Solr id, and nothing else
      changes. */
  lemma UriToId(uri: string, i: nat)
    requires i < |uri|
    ensures Replace(uri, '/', '.', -1)[i] == if uri[i] == '/' then '.' else uri[i]
  {
    ReplaceAt(uri, '/', '.', -1, i);
  }
}
