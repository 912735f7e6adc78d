/** Dotted keys: `dot2dict` builds a nested dict from a dotted key, and
    `nested_get` walks a key list down a nested dict (asset_scanner/core/utils.py;
    stac_generator/core/utils.py holds the same `nested_get`). */
module Dotted {
  import opened Wrappers
  import opened Values
  import opened Strings

  /** `{k1: {k2: ... {kn: v}}}` for the key path `[k1, ..., kn]`. */
  function Nest(path: seq<string>, v: Value): (r: Value)
    decreases |path|
    ensures path == [] ==> r == v
    ensures path != [] ==> r.Dict? && r.fields.Keys == {path[0]}
  {
    if |path| == 0 then v else Dict(map[path[0] := Nest(path[1..], v)])
  }

  /** The key path a dotted key denotes: its `.`-separated parts, except that a
      leading empty part is dropped, and the empty key has no parts. */
  function DotParts(key: string): seq<string> {
    if key == "" then []
    else
      var p := Split(key, '.');
      if p[0] == "" then p[1..] else p
  }

  /** `dot2dict(key, val)`: split off the last part, wrap the value in a
      one-key dict under it, and continue with the rest of the key. */
  function Dot2Dict(key: string, val: Value): (r: Value)
    decreases |key|
    ensures key == "" ==> r == val
    ensures key != "" ==> r.Dict?
  {
    if key == "" then val
    else
      Dot2Dict(InitKey(key), Dict(map[LastPart(key) := val]))
  }

  lemma {:induction false} JoinSnoc(ps: seq<string>, sep: string, p: string)
    ensures Join(ps + [p], sep) == if ps == [] then p else Join(ps, sep) + sep + p
    decreases |ps|
  {
    if |ps| > 1 {
      JoinSnoc(ps[1..], sep, p);
      assert (ps + [p])[1..] == ps[1..] + [p];
    } else if |ps| == 1 {
      assert ps + [p] == [ps[0], p];
    }
  }

  lemma {:induction false} NestSnoc(path: seq<string>, t: string, v: Value)
    ensures Nest(path + [t], v) == Nest(path, Dict(map[t := v]))
    decreases |path|
  {
    if |path| > 0 {
      NestSnoc(path[1..], t, v);
      assert (path + [t])[1..] == path[1..] + [t];
    } else {
      assert [t][1..] == [];
    }
  }

  /** Joining pieces gives the empty string only for no pieces or one empty piece. */
  lemma JoinEmpty(ps: seq<string>)
    ensures Join(ps, ".") == "" <==> ps == [] || ps == [""]
  {
    if |ps| > 1 {
      assert |Join(ps, ".")| >= 1;
    }
  }

  /** The key `dot2dict` recurses on: every part but the last, re-joined. */
  function InitKey(key: string): (r: string)
    requires key != ""
    ensures |r| < |key|
  {
    var parts := Split(key, '.');
    JoinSplit(key, '.');
    JoinSnoc(parts[..|parts| - 1], ".", parts[|parts| - 1]);
    assert parts[..|parts| - 1] + [parts[|parts| - 1]] == parts;
    Join(parts[..|parts| - 1], ".")
  }

  /** The last `.`-separated part of a key. */
  function LastPart(key: string): string {
    var parts := Split(key, '.');
    parts[|parts| - 1]
  }

  lemma Dot2DictUnfold(key: string, val: Value)
    requires key != ""
    ensures Dot2Dict(key, val) == Dot2Dict(InitKey(key), Dict(map[LastPart(key) := val]))
  {
  }

  /** A key whose initial key is empty denotes the single path `[last part]`. */
  lemma DotPartsOfShortKey(key: string)
    requires key != "" && InitKey(key) == ""
    ensures DotParts(key) == [LastPart(key)]
  {
    var parts := Split(key, '.');
    var n := |parts|;
    var init := parts[..n - 1];
    assert Join(init, ".") == "";
    JoinEmpty(init);
    assert init + [parts[n - 1]] == parts;
    if init == [] {
      assert parts == [parts[n - 1]];
      JoinSplit(key, '.');
      assert parts[0] != "";
    } else {
      assert parts == ["", parts[n - 1]];
    }
  }

  /** Otherwise the path is the initial key's path followed by the last part. */
  lemma DotPartsOfLongKey(key: string)
    requires key != "" && InitKey(key) != ""
    ensures DotParts(key) == DotParts(InitKey(key)) + [LastPart(key)]
  {
    var parts := Split(key, '.');
    var n := |parts|;
    var init := parts[..n - 1];
    var t := parts[n - 1];
    assert Join(init, ".") == InitKey(key);
    assert init + [t] == parts;
    assert forall i :: 0 <= i < |init| ==> '.' !in init[i];
    assert |init| >= 1;
    SplitJoin(init, '.');
    assert parts[0] == init[0];
    if parts[0] == "" {
      assert parts[1..] == init[1..] + [t];
    }
  }

  /** `dot2dict` nests the value under the key's parts, outermost first: the
      nesting depth is the number of parts. */
  lemma {:induction false} Dot2DictNests(key: string, val: Value)
    ensures Dot2Dict(key, val) == Nest(DotParts(key), val)
    decreases |key|
  {
    if key != "" {
      var t := LastPart(key);
      var inner := Dict(map[t := val]);
      Dot2DictUnfold(key, val);
      Dot2DictNests(InitKey(key), inner);
      if InitKey(key) == "" {
        DotPartsOfShortKey(key);
        assert Nest([t], val) == Dict(map[t := Nest([], val)]);
      } else {
        DotPartsOfLongKey(key);
        NestSnoc(DotParts(InitKey(key)), t, val);
      }
    }
  }

  /** The empty key returns the value itself, un-nested. */
  lemma Dot2DictEmptyKey(val: Value)
    ensures Dot2Dict("", val) == val
  {
  }

  /** `dot2dict("k", v) == {"k": v}` for a key without dots. */
  lemma Dot2DictSingle(k: string, val: Value)
    requires k != "" && '.' !in k
    ensures Dot2Dict(k, val) == Dict(map[k := val])
  {
    Dot2DictNests(k, val);
    assert Split(k, '.') == [k];
  }

  /** `dot2dict("a.b", v) == {"a": {"b": v}}` for dot-free, non-empty `a` and `b`. */
  lemma Dot2DictTwoLevels(a: string, b: string, val: Value)
    requires a != "" && '.' !in a && '.' !in b
    ensures Dot2Dict(a + "." + b, val) == Dict(map[a := Dict(map[b := val])])
  {
    Dot2DictNests(a + "." + b, val);
    assert [a, b][1..] == [b];
    assert Join([a, b], ".") == a + "." + b;
    SplitJoin([a, b], '.');
    assert DotParts(a + "." + b) == [a, b];
    assert Nest([b], val) == Dict(map[b := val]);
  }

  /** The first case of the repository's unit test for `dot2dict`: a key
      without dots. */
  lemma Dot2DictTestSingle(val: Value)
    ensures Dot2Dict("single_key", val) == Dict(map["single_key" := val])
  {
    Dot2DictSingle("single_key", val);
  }

  /** The second case of that test: a key with one dot. */
  lemma Dot2DictTestNested(val: Value)
    ensures Dot2Dict("single_key.nested", val) == Dict(map["single_key" := Dict(map["nested" := val])])
  {
    Dot2DictTwoLevels("single_key", "nested", val);
    assert "single_key" + "." + "nested" == "single_key.nested";
  }

  /** The loop of `nested_get` from the current level: keys before the first
      occurrence of `last` descend (a missing key descends into `{}`), and that
      occurrence returns `.get(last)`. Calling `.get` on a non-dict raises. */
  function NestedGetFrom(keys: seq<string>, last: string, d: Value): (r: Outcome<Value>)
    decreases |keys|
    ensures r != Err(IndexError)
  {
    if |keys| == 0 then Ok(Null)
    else if !d.Dict? then Err(AttributeError("get"))
    else if keys[0] != last then
      NestedGetFrom(keys[1..], last, if keys[0] in d.fields then d.fields[keys[0]] else Dict(map[]))
    else Ok(Get(d.fields, keys[0]))
  }

  /** `nested_get(key_list, input_dict)`: an empty key list raises IndexError. */
  function NestedGet(keys: seq<string>, d: Value): (r: Outcome<Value>)
    ensures |keys| == 0 <==> r == Err(IndexError)
    ensures |keys| == 1 && d.Dict? ==> r == Ok(Get(d.fields, keys[0]))
    ensures !d.Dict? && |keys| > 0 ==> r.Err?
  {
    if |keys| == 0 then Err(IndexError) else NestedGetFrom(keys, keys[|keys| - 1], d)
  }

  lemma {:induction false} NestedGetFromNest(path: seq<string>, last: string, v: Value)
    requires last !in path
    ensures NestedGetFrom(path + [last], last, Nest(path + [last], v)) == Ok(v)
    decreases |path|
  {
    if |path| > 0 {
      assert (path + [last])[1..] == path[1..] + [last];
      NestedGetFromNest(path[1..], last, v);
    } else {
      assert [last][1..] == [];
    }
  }

  /** `nested_get` undoes `dot2dict`: following a dotted key's parts through the
      dict it built returns the value, provided the last part does not also
      occur earlier (the loop stops at the first occurrence of the last key). */
  lemma NestedGetInvertsDot2Dict(key: string, v: Value)
    requires DotParts(key) != []
    requires DotParts(key)[|DotParts(key)| - 1] !in DotParts(key)[..|DotParts(key)| - 1]
    ensures NestedGet(DotParts(key), Dot2Dict(key, v)) == Ok(v)
  {
    var ps := DotParts(key);
    var n := |ps|;
    Dot2DictNests(key, v);
    assert ps[..n - 1] + [ps[n - 1]] == ps;
    NestedGetFromNest(ps[..n - 1], ps[n - 1], v);
  }
}
