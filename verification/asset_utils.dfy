/** Helpers of the asset scanner's extraction methods
    (asset_scanner/plugins/extraction_methods/utils.py, with the same
    `is_remote_uri` in stac_generator/core/utils.py): recognising a remote
    uri, and the item id built from the aggregation facets. */
module ScannerUtils {
  import opened Wrappers
  import opened Values
  import opened Strings
  import Extraction

  // ---------------------------------------------------------------- remote uris

  predicate SchemeStart(c: char) {
    'a' <= c <= 'z'
  }

  predicate SchemeChar(c: char) {
    'a' <= c <= 'z' || '0' <= c <= '9'
  }

  /** The length of the longest prefix matching `[a-z][a-z0-9]*`, 0 if none. */
  function SchemeLen(p: string): (n: nat)
    ensures n <= |p|
    ensures n > 0 ==> SchemeStart(p[0]) && forall i :: 1 <= i < n ==> SchemeChar(p[i])
    ensures n > 0 && n < |p| ==> !SchemeChar(p[n])
    ensures n == 0 ==> |p| == 0 || !SchemeStart(p[0])
  {
    if |p| == 0 || !SchemeStart(p[0]) then 0 else 1 + SchemeRun(p[1..])
  }

  /** The length of the longest prefix of scheme characters. */
  function SchemeRun(s: string): (n: nat)
    ensures n <= |s|
    ensures forall i :: 0 <= i < n ==> SchemeChar(s[i])
    ensures n < |s| ==> !SchemeChar(s[n])
  {
    if |s| == 0 || !SchemeChar(s[0]) then 0 else 1 + SchemeRun(s[1..])
  }

  /** `s` starts with `"://"` or `"::"`. */
  predicate Separator(s: string) {
    (|s| >= 3 && s[..3] == "://") || (|s| >= 2 && s[..2] == "::")
  }

  /** `is_remote_uri`: the greedy scheme is followed by a separator. */
  function IsRemoteUri(p: string): (r: bool)
    ensures r ==> exists k :: MatchesAt(p, k)
    ensures r ==> ':' in p
  {
    var n := SchemeLen(p);
    var r := n > 0 && Separator(p[n..]);
    assert r ==> MatchesAt(p, n) && p[n] == ':';
    r
  }

  /** The regular expression read directly: some non-empty prefix is a scheme
      and is followed by a separator. */
  ghost predicate MatchesAt(p: string, k: int) {
    1 <= k <= |p| && SchemeStart(p[0]) && (forall i :: 1 <= i < k ==> SchemeChar(p[i])) && Separator(p[k..])
  }

  /** The greedy reading agrees with the regular expression: no shorter
      scheme can be followed by a separator, since `:` is not a scheme
      character. */
  lemma IsRemoteUriMeansMatch(p: string)
    ensures IsRemoteUri(p) <==> exists k :: MatchesAt(p, k)
  {
    var n := SchemeLen(p);
    if IsRemoteUri(p) {
      assert MatchesAt(p, n);
    }
    if exists k :: MatchesAt(p, k) {
      var k :| MatchesAt(p, k);
      assert p[k] == ':' by { assert p[k..][0] == ':'; }
      assert n > 0;
    }
  }

  /** A typical remote uri, and a local path. */
  lemma RemoteExamples()
    ensures IsRemoteUri("s3://bucket")
    ensures !IsRemoteUri("/badc/file.nc")
  {
    var s := "s3://bucket";
    assert SchemeRun(s[1..]) == 1 by {
      assert s[1..][0] == '3';
      assert s[1..][1..][0] == ':';
    }
    assert s[2..][..3] == "://";
  }

  // ---------------------------------------------------------------- item ids

  /** A facet value that adds a piece to the id: a string, an integer (a
      bool being one), or a list. */
  predicate Contributes(vals: Value) {
    vals.Str? || vals.Int? || vals.Bool? || vals.List?
  }

  /** `generate_item_id_from_properties`. When every aggregation facet is a
      tag, the id string starts from the collection id and each facet adds
      `.value` for a string (as written, an integer raises on the join) or
      `.multi_{facet}` for a list; other values add nothing. Otherwise the id
      hashes `"{collection_id}.{filepath}"`. The join needs a string
      collection id, and `generate_id` needs a string to encode. */
  function GenerateItemId(v: Variant, fx: Foreign, filepath: Value, collectionId: Value,
                          tags: Body, facets: seq<string>): (r: Outcome<string>)
    ensures !(forall i :: 0 <= i < |facets| ==> facets[i] in tags) ==>
      r == Ok(fx.md5(PyStr(collectionId, fx) + "." + PyStr(filepath, fx)))
    ensures (forall i :: 0 <= i < |facets| ==> facets[i] in tags) && collectionId.Str? ==>
      (r.Ok? <==> Extraction.Pieces(v, tags, facets, true).Ok?)
    ensures (forall i :: 0 <= i < |facets| ==> facets[i] in tags) && collectionId.Str? && r.Ok? ==>
      var pieces := Extraction.Pieces(v, tags, facets, true).value;
      r.value == fx.md5(if pieces == [] then collectionId.s else collectionId.s + "." + Join(pieces, "."))
    ensures (forall i :: 0 <= i < |facets| ==> facets[i] in tags) && !collectionId.Str? ==> r.Err?
  {
    if forall i :: 0 <= i < |facets| ==> facets[i] in tags then
      match collectionId
      case Str(c) =>
        (match Extraction.Pieces(v, tags, facets, true)
         case Err(e) => Err(e)
         case Ok(pieces) =>
           DotAppendShape(c, pieces);
           Ok(fx.md5(Extraction.DotAppend(c, pieces))))
      case _ =>
        if exists i :: 0 <= i < |facets| && Contributes(tags[facets[i]]) then
          Err(TypeError("sequence item 0: expected str instance"))
        else Err(AttributeError("encode"))
    else Ok(fx.md5(PyStr(collectionId, fx) + "." + PyStr(filepath, fx)))
  }

  /** The accumulated id string: the collection id alone, or followed by a
      dot and the pieces joined with dots. */
  lemma DotAppendShape(c: string, pieces: seq<string>)
    ensures Extraction.DotAppend(c, pieces) == if pieces == [] then c else c + "." + Join(pieces, ".")
  {
    if pieces != [] {
      Extraction.DotAppendJoin(c, pieces);
    }
  }

  /** A list-valued facet stands as `multi_{facet}`, so items differing only
      in that list share an id. */
  lemma ListFacetIsMulti(v: Variant, fx: Foreign, filepath: Value, c: string, facet: string, xs: seq<Value>)
    ensures GenerateItemId(v, fx, filepath, Str(c), map[facet := List(xs)], [facet]) == Ok(fx.md5(c + ".multi_" + facet))
  {
    var tags := map[facet := List(xs)];
    Extraction.PiecesOne(v, tags, facet, true);
    assert Join(["multi_" + facet], ".") == "multi_" + facet;
    assert c + "." + ("multi_" + facet) == c + ".multi_" + facet;
  }

  /** An integer facet makes the id fail as written; corrected, it is
      printed. */
  lemma IntFacetFails(fx: Foreign, filepath: Value, c: string, facet: string, i: int)
    ensures GenerateItemId(AsWritten, fx, filepath, Str(c), map[facet := Int(i)], [facet]).Err?
    ensures GenerateItemId(Corrected, fx, filepath, Str(c), map[facet := Int(i)], [facet]) == Ok(fx.md5(c + "." + IntToStr(i)))
  {
    var tags := map[facet := Int(i)];
    Extraction.PiecesOne(AsWritten, tags, facet, true);
    Extraction.PiecesOne(Corrected, tags, facet, true);
    assert Join([IntToStr(i)], ".") == IntToStr(i);
  }
}
