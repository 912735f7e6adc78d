/** Recipe resolution of stac_generator: which recipe applies to a path.

    `Baker` is stac_generator/core/baker.py: recipes are keyed by a hash of
    their content, linked recipes (`member_of`) are loaded first and
    remembered by file location, and `paths_map` sends each registered path
    to a recipe key. The `Old` members model stac_generator/core/baker_old.py:
    recipes are keyed by their file and `member_of` is resolved one level
    deep.

    The directory scan is a parameter (the files in `rglob` order) and so
    are the parsed YAML contents (a map from file path to value). */
module Baker {
  import opened Wrappers
  import opened Values
  import opened Paths
  import Describers

  /** A validated `Recipe`: its type, the paths it claims, its id and
      extraction-method configuration (kept as configured) and the keys of
      the recipes it links to. */
  datatype Recipe = Recipe(kind: string, paths: seq<PosixPath>, id: Value, extractionMethods: Value, links: seq<string>)

  /** Where a recipe file was opened from. The scan yields `Path` objects; a
      `member_of` entry is the configured string. Python compares the two as
      different keys of `location_map`. */
  datatype Location = Scanned(path: PosixPath) | Linked(name: string)

  function LocationPath(loc: Location): PosixPath {
    match loc
    case Scanned(p) => p
    case Linked(s) => ParsePath(s)
  }

  /** The loader's state: recipes by key, the path registry and the
      locations already loaded. */
  datatype Store = Store(recipes: map<string, Recipe>, pathsMap: map<PosixPath, string>, locationMap: map<Location, string>)

  /** Every key the store hands out names a loaded recipe, and every link of
      a loaded recipe is loaded. */
  predicate Closed(st: Store) {
    (forall l | l in st.locationMap :: st.locationMap[l] in st.recipes)
    && (forall p | p in st.pathsMap :: st.pathsMap[p] in st.recipes)
    && (forall k | k in st.recipes :: forall i :: 0 <= i < |st.recipes[k].links| ==> st.recipes[k].links[i] in st.recipes)
  }

  /** The store only grows. */
  predicate Grows(st: Store, st': Store) {
    st.recipes.Keys <= st'.recipes.Keys && st.locationMap.Keys <= st'.locationMap.Keys
    && (forall l | l in st.locationMap :: st'.locationMap[l] == st.locationMap[l])
    && st.pathsMap.Keys <= st'.pathsMap.Keys
  }

  /** The JSON dump of a recipe that its key hashes: every field but its
      location, which a recipe does not have. */
  function RecipeValue(r: Recipe): Value {
    Dict(map[
      "type" := Str(r.kind),
      "paths" := List(seq(|r.paths|, i requires 0 <= i < |r.paths| => Str(PathStr(r.paths[i])))),
      "id" := r.id,
      "extraction_methods" := r.extractionMethods,
      "links" := List(seq(|r.links|, i requires 0 <= i < |r.links| => Str(r.links[i])))])
  }

  /** `Recipe.set_key`: the md5 of the JSON dump, so recipes with equal
      contents get equal keys wherever they are stored. */
  function KeyOf(fx: Foreign, r: Recipe): string {
    fx.md5(fx.render(RecipeValue(r)))
  }

  /** The `paths` of a recipe file: absent is `[]`; each must be a string.
      A `null` passes validation as `Optional[list[Path]]`, but the
      `paths` serializer that computes the key then iterates None and
      raises TypeError. */
  function RecipePaths(data: Body): (r: Outcome<seq<PosixPath>>)
    ensures "paths" !in data ==> r == Ok([])
    ensures "paths" in data && data["paths"].Null? ==> r.Err? && r.error.TypeError?
    ensures r.Ok? && "paths" in data ==> (data["paths"].List? && |r.value| == |data["paths"].items|
      && forall i :: 0 <= i < |r.value| ==> data["paths"].items[i].Str? && r.value[i] == ParsePath(data["paths"].items[i].s))
    ensures "paths" in data && data["paths"].List? && (forall i :: 0 <= i < |data["paths"].items| ==> data["paths"].items[i].Str?)
            ==> r.Ok?
  {
    if "paths" !in data then Ok([])
    else match data["paths"]
      case List(xs) =>
        if forall i :: 0 <= i < |xs| ==> xs[i].Str? then Ok(seq(|xs|, i requires 0 <= i < |xs| => ParsePath(xs[i].s)))
        else Err(ValueError("validation error"))
      case Null => Err(TypeError("'NoneType' object is not iterable"))
      case _ => Err(ValueError("validation error"))
  }

  /** Whether a configured value validates as an `ExtractionMethod`: a
      mapping whose `method` is a string and whose `inputs`, when given, is a
      dict, or None where the model declares it `Optional`. */
  predicate MethodValid(v: Value, inputsOptional: bool) {
    v.Dict? && "method" in v.fields && v.fields["method"].Str?
    && ("inputs" in v.fields ==> v.fields["inputs"].Dict? || (inputsOptional && v.fields["inputs"].Null?))
  }

  /** The validated `ExtractionMethod`: its two fields, `inputs` defaulting
      to `{}`; any other key is dropped. */
  function ValidMethod(v: Value, inputsOptional: bool): (r: Value)
    requires MethodValid(v, inputsOptional)
    ensures r.Dict? && r.fields.Keys == {"method", "inputs"} && r.fields["method"] == v.fields["method"]
    ensures r.fields["inputs"] == (if "inputs" in v.fields then v.fields["inputs"] else Dict(map[]))
  {
    Dict(map["method" := v.fields["method"],
             "inputs" := if "inputs" in v.fields then v.fields["inputs"] else Dict(map[])])
  }

  /** An `Optional[list[ExtractionMethod]]` field of a recipe: absent is
      `[]`, `null` stays None, and a list validates entrywise. */
  function RecipeMethods(data: Body, field: string, inputsOptional: bool): (r: Outcome<Value>)
    ensures field !in data ==> r == Ok(List([]))
    ensures field in data && data[field].Null? ==> r == Ok(Null)
    ensures field in data && !data[field].Null? ==>
      (r.Ok? <==> data[field].List? && forall i :: 0 <= i < |data[field].items| ==> MethodValid(data[field].items[i], inputsOptional))
    ensures r.Ok? && field in data && data[field].List? ==>
      r.value.List? && |r.value.items| == |data[field].items|
      && forall i :: 0 <= i < |r.value.items| ==> r.value.items[i] == ValidMethod(data[field].items[i], inputsOptional)
  {
    if field !in data then Ok(List([]))
    else match data[field]
      case Null => Ok(Null)
      case List(xs) =>
        if forall i :: 0 <= i < |xs| ==> MethodValid(xs[i], inputsOptional) then
          Ok(List(seq(|xs|, i requires 0 <= i < |xs| && MethodValid(xs[i], inputsOptional) => ValidMethod(xs[i], inputsOptional))))
        else Err(ValueError("validation error"))
      case _ => Err(ValueError("validation error"))
  }

  /** `Recipe(**data)` with the resolved `links`: `type` is required and must
      be a string, `paths` must validate, and so must `id` and
      `extraction_methods` as lists of extraction methods. Other keys are
      ignored. baker.py declares an extraction method's `inputs` optional,
      baker_old.py does not. Validation errors are reported before the key
      is computed, so a `null` path list fails last. */
  function Validate(data: Body, links: seq<string>, inputsOptional: bool): (r: Outcome<Recipe>)
    ensures r.Ok? <==> "type" in data && data["type"].Str? && RecipePaths(data).Ok?
                       && RecipeMethods(data, "id", inputsOptional).Ok?
                       && RecipeMethods(data, "extraction_methods", inputsOptional).Ok?
    ensures r.Ok? ==> r.value.kind == data["type"].s && r.value.paths == RecipePaths(data).value && r.value.links == links
    ensures r.Ok? ==> r.value.id == RecipeMethods(data, "id", inputsOptional).value
                      && r.value.extractionMethods == RecipeMethods(data, "extraction_methods", inputsOptional).value
    ensures r.Err? && r.error.TypeError? ==> "paths" in data && data["paths"].Null?
  {
    var paths := RecipePaths(data);
    var id := RecipeMethods(data, "id", inputsOptional);
    var methods := RecipeMethods(data, "extraction_methods", inputsOptional);
    if "type" !in data || !data["type"].Str? || (paths.Err? && !paths.error.TypeError?) || id.Err? || methods.Err? then
      Err(ValueError("validation error"))
    else if paths.Err? then Err(paths.error)
    else Ok(Recipe(data["type"].s, paths.value, id.value, methods.value, links))
  }

  /** Registering a loaded recipe under its key, its location and its paths;
      a path another recipe claimed before now points here. */
  function Register(st: Store, loc: Location, key: string, r: Recipe): (st': Store)
    ensures st'.recipes == st.recipes[key := r]
    ensures st'.locationMap == st.locationMap[loc := key]
    ensures st'.pathsMap.Keys == st.pathsMap.Keys + set i | 0 <= i < |r.paths| :: r.paths[i]
    ensures forall i :: 0 <= i < |r.paths| ==> st'.pathsMap[r.paths[i]] == key
    ensures forall p | p in st.pathsMap && p !in r.paths :: st'.pathsMap[p] == st.pathsMap[p]
  {
    var claimed := set i | 0 <= i < |r.paths| :: r.paths[i];
    Store(st.recipes[key := r],
          map p | p in st.pathsMap.Keys + claimed :: if p in claimed then key else st.pathsMap[p],
          st.locationMap[loc := key])
  }

  /** `Recipes._load_data(file)`: a location loaded before gives its key
      back; otherwise the linked recipes are loaded first, then the recipe is
      validated with their keys as `links` and registered. `fuel` bounds the
      recursion through `member_of`, as Python's recursion limit does. */
  function LoadData(fx: Foreign, files: map<PosixPath, Value>, fuel: nat, st: Store, loc: Location): (r: Outcome<(Store, string)>)
    decreases fuel, 0, 0
    ensures r.Ok? ==> Grows(st, r.value.0)
    ensures r.Ok? ==> loc in r.value.0.locationMap && r.value.0.locationMap[loc] == r.value.1
    ensures r.Ok? && Closed(st) ==> Closed(r.value.0)
    ensures loc in st.locationMap ==> r == Ok((st, st.locationMap[loc]))
  {
    if loc in st.locationMap then Ok((st, st.locationMap[loc]))
    else if fuel == 0 then Err(RecursionError)
    else
      var path := LocationPath(loc);
      if path !in files then Err(FileNotFound(PathStr(path)))
      else if files[path].List? then Err(TypeError("pop expected at most 1 argument"))
      else if !files[path].Dict? then Err(AttributeError("pop"))
      else
        var data := files[path].fields;
        var memberOf := if "member_of" in data then data["member_of"] else List([]);
        match Describers.PathEntries(memberOf)
        case Err(e) => Err(e)
        case Ok(entries) =>
          match LoadLinks(fx, files, fuel - 1, st, entries)
          case Err(e) => Err(e)
          case Ok(loaded) =>
            var (st1, links) := loaded;
            match Validate(data - {"member_of"}, links, true)
            case Err(e) => Err(e)
            case Ok(recipe) =>
              var key := KeyOf(fx, recipe);
              RegisterGrows(st, st1, loc, key, recipe);
              Ok((Register(st1, loc, key, recipe), key))
  }

  /** Loading a recipe loads every recipe its `member_of` names; a mapping
      there names its keys, so `member_of: {a: 1}` loads the recipe `a`. */
  lemma MemberOfLoaded(fx: Foreign, files: map<PosixPath, Value>, fuel: nat, st: Store, loc: Location)
    requires loc !in st.locationMap
    requires LoadData(fx, files, fuel, st, loc).Ok?
    ensures var data := files[LocationPath(loc)].fields;
      "member_of" in data && data["member_of"].Dict? ==>
        forall k :: k in data["member_of"].fields ==> Linked(k) in LoadData(fx, files, fuel, st, loc).value.0.locationMap
  {
    var data := files[LocationPath(loc)].fields;
    if "member_of" in data && data["member_of"].Dict? {
      var entries := Describers.PathEntries(data["member_of"]).value;
      var loaded := LoadLinks(fx, files, fuel - 1, st, entries).value;
      forall k | k in data["member_of"].fields
        ensures Linked(k) in LoadData(fx, files, fuel, st, loc).value.0.locationMap
      {
        var i :| 0 <= i < |entries| && entries[i] == Str(k);
        assert Linked(k) in loaded.0.locationMap;
      }
    }
  }

  /** Registering a new location keeps a grown store growing, and a closed
      store closed when the recipe's links are all loaded. */
  lemma RegisterGrows(st: Store, st1: Store, loc: Location, key: string, r: Recipe)
    requires loc !in st.locationMap && Grows(st, st1)
    ensures Grows(st, Register(st1, loc, key, r))
    ensures Closed(st1) && (forall i :: 0 <= i < |r.links| ==> r.links[i] in st1.recipes) ==> Closed(Register(st1, loc, key, r))
  {
  }

  /** The `member_of` loop: each entry is loaded in turn and its key kept, in
      order. */
  function LoadLinks(fx: Foreign, files: map<PosixPath, Value>, fuel: nat, st: Store, entries: seq<Value>): (r: Outcome<(Store, seq<string>)>)
    decreases fuel, 1, |entries|
    ensures r.Ok? ==> Grows(st, r.value.0)
    ensures r.Ok? ==> |r.value.1| == |entries|
    ensures r.Ok? ==> forall i :: 0 <= i < |r.value.1| ==> r.value.1[i] in r.value.0.recipes || r.value.1[i] in r.value.0.locationMap.Values
    ensures r.Ok? && Closed(st) ==> Closed(r.value.0) && forall i :: 0 <= i < |r.value.1| ==> r.value.1[i] in r.value.0.recipes
    ensures r.Ok? ==> forall i :: 0 <= i < |entries| ==> entries[i].Str? && Linked(entries[i].s) in r.value.0.locationMap
  {
    if |entries| == 0 then Ok((st, []))
    else if !entries[0].Str? then Err(TypeError("expected str, bytes or os.PathLike object"))
    else
      match LoadData(fx, files, fuel, st, Linked(entries[0].s))
      case Err(e) => Err(e)
      case Ok(first) =>
        var (st1, key) := first;
        match LoadLinks(fx, files, fuel, st1, entries[1..])
        case Err(e) => Err(e)
        case Ok(rest) =>
          var (st2, keys) := rest;
          assert key in st2.locationMap.Values by {
            assert Linked(entries[0].s) in st2.locationMap;
          }
          Ok((st2, [key] + keys))
  }

  /** `Recipes(root_path)`: every scanned file loaded in scan order into one
      store. */
  function LoadAll(fx: Foreign, files: map<PosixPath, Value>, fuel: nat, st: Store, scanned: seq<PosixPath>): (r: Outcome<Store>)
    decreases |scanned|
    ensures r.Ok? ==> Grows(st, r.value)
    ensures r.Ok? && Closed(st) ==> Closed(r.value)
    ensures r.Ok? ==> forall i :: 0 <= i < |scanned| ==> Scanned(scanned[i]) in r.value.locationMap
  {
    if |scanned| == 0 then Ok(st)
    else
      match LoadData(fx, files, fuel, st, Scanned(scanned[0]))
      case Err(e) => Err(e)
      case Ok(first) =>
        var r := LoadAll(fx, files, fuel, first.0, scanned[1..]);
        assert r.Ok? ==> forall i :: 1 <= i < |scanned| ==> scanned[i] == scanned[1..][i - 1];
        r
  }

  /** The store `Recipes(root_path)` builds from nothing. */
  function NewRecipes(fx: Foreign, files: map<PosixPath, Value>, fuel: nat, scanned: seq<PosixPath>): (r: Outcome<Store>)
    ensures r.Ok? ==> Closed(r.value)
    ensures r.Ok? ==> forall i :: 0 <= i < |scanned| ==> Scanned(scanned[i]) in r.value.locationMap
  {
    LoadAll(fx, files, fuel, Store(map[], map[], map[]), scanned)
  }

  /** A recipe with its `member_of` resolved. */
  datatype Loaded = Loaded(key: string, recipe: Recipe, memberOf: seq<Recipe>)

  /** `load_recipe(key)`: the recipe and the recipes of its links, in link
      order. */
  function LoadRecipe(st: Store, key: string): (r: Outcome<Loaded>)
    ensures key !in st.recipes ==> r == Err(KeyError(key))
    ensures r.Ok? ==> key in st.recipes && r.value.recipe == st.recipes[key] && r.value.key == key
    ensures r.Ok? ==> (|r.value.memberOf| == |st.recipes[key].links|
      && forall i :: 0 <= i < |r.value.memberOf| ==> st.recipes[key].links[i] in st.recipes && r.value.memberOf[i] == st.recipes[st.recipes[key].links[i]])
    ensures key in st.recipes && Closed(st) ==> r.Ok?
  {
    if key !in st.recipes then Err(KeyError(key))
    else
      match Resolve(st.recipes, st.recipes[key].links)
      case Err(e) => Err(e)
      case Ok(memberOf) => Ok(Loaded(key, st.recipes[key], memberOf))
  }

  /** `[self.recipes[link] for link in links]`: the first missing link raises
      KeyError. */
  function Resolve(recipes: map<string, Recipe>, links: seq<string>): (r: Outcome<seq<Recipe>>)
    decreases |links|
    ensures r.Ok? <==> forall i :: 0 <= i < |links| ==> links[i] in recipes
    ensures r.Ok? ==> |r.value| == |links| && forall i :: 0 <= i < |links| ==> r.value[i] == recipes[links[i]]
  {
    if |links| == 0 then Ok([])
    else if links[0] !in recipes then Err(KeyError(links[0]))
    else
      match Resolve(recipes, links[1..])
      case Err(e) =>
        assert exists i :: 1 <= i < |links| && links[i] !in recipes by {
          var j :| 0 <= j < |links[1..]| && links[1..][j] !in recipes;
          assert links[j + 1] == links[1..][j];
        }
        Err(e)
      case Ok(rest) =>
        assert forall i :: 1 <= i < |links| ==> links[i] == links[1..][i - 1];
        Ok([recipes[links[0]]] + rest)
  }

  /** The position of the first candidate registered in `m`. */
  function FirstRegistered<V>(cands: seq<PosixPath>, m: map<PosixPath, V>): (r: Option<nat>)
    decreases |cands|
    ensures r.None? <==> forall i :: 0 <= i < |cands| ==> cands[i] !in m
    ensures r.Some? ==> (r.value < |cands| && cands[r.value] in m
      && forall i :: 0 <= i < r.value ==> cands[i] !in m)
  {
    if |cands| == 0 then None
    else if cands[0] in m then Some(0)
    else
      match FirstRegistered(cands[1..], m)
      case None => None
      case Some(j) => Some(j + 1)
  }

  /** The paths `get` tries, nearest first. As written, the path itself is
      tried as a `str`, which never equals a `Path` key of `paths_map`, so
      only the proper ancestors can match; corrected, the path itself is
      tried first. */
  function Candidates(v: Variant, path: string): (r: seq<PosixPath>)
    ensures v.AsWritten? ==> r == Parents(ParsePath(path))
    ensures v.Corrected? ==> r == [ParsePath(path)] + Parents(ParsePath(path))
  {
    var p := ParsePath(path);
    if v.AsWritten? then Parents(p) else [p] + Parents(p)
  }

  /** `Recipes.get(path)`: a recipe key given directly is loaded; otherwise
      the nearest candidate in `paths_map` decides; no candidate raises
      ValueError. */
  function GetRecipe(v: Variant, st: Store, path: string): (r: Outcome<Loaded>)
    ensures path in st.recipes ==> r == LoadRecipe(st, path)
    ensures path !in st.recipes && FirstRegistered(Candidates(v, path), st.pathsMap).None? ==> r.Err? && r.error.ValueError?
    ensures path !in st.recipes && FirstRegistered(Candidates(v, path), st.pathsMap).Some? ==>
      r == LoadRecipe(st, st.pathsMap[Candidates(v, path)[FirstRegistered(Candidates(v, path), st.pathsMap).value]])
    ensures Closed(st) && (path in st.recipes || FirstRegistered(Candidates(v, path), st.pathsMap).Some?) ==> r.Ok?
  {
    if path in st.recipes then LoadRecipe(st, path)
    else
      var cands := Candidates(v, path);
      match FirstRegistered(cands, st.pathsMap)
      case None => Err(ValueError("No Recipe found for path"))
      case Some(i) => LoadRecipe(st, st.pathsMap[cands[i]])
  }

  /** The most specific recipe wins: the chosen candidate is the deepest
      registered one. */
  lemma NearestWins(v: Variant, st: Store, path: string, j: nat)
    requires j < |Candidates(v, path)| && Candidates(v, path)[j] in st.pathsMap
    ensures FirstRegistered(Candidates(v, path), st.pathsMap).Some?
    ensures var c := Candidates(v, path)[FirstRegistered(Candidates(v, path), st.pathsMap).value];
      |Candidates(v, path)[j].parts| <= |c.parts|
  {
    var cands := Candidates(v, path);
    var p := ParsePath(path);
    var i := FirstRegistered(cands, st.pathsMap).value;
    assert i <= j;
    if v.AsWritten? {
      assert cands[i].parts == p.parts[..|p.parts| - 1 - i];
      assert cands[j].parts == p.parts[..|p.parts| - 1 - j];
    } else {
      if i > 0 {
        assert cands[i] == Parents(p)[i - 1];
        assert cands[j] == Parents(p)[j - 1];
      }
    }
  }

  /** As written, a path registered exactly finds no recipe unless one of its
      ancestors is registered; corrected, its own recipe is found. */
  lemma RegisteredPathItselfIgnored(path: string, key: string, r: Recipe)
    requires r.links == [] && key != path
    ensures var st := Store(map[key := r], map[ParsePath(path) := key], map[]);
      GetRecipe(AsWritten, st, path).Err? && GetRecipe(Corrected, st, path) == Ok(Loaded(key, r, []))
  {
    var p := ParsePath(path);
    var st := Store(map[key := r], map[p := key], map[]);
    var ps := Parents(p);
    forall i | 0 <= i < |ps| ensures ps[i] !in st.pathsMap {
      assert |ps[i].parts| < |p.parts|;
    }
    assert FirstRegistered([p] + ps, st.pathsMap) == Some(0);
    assert Resolve(st.recipes, []) == Ok([]);
  }

  /** Every key `get` can reach is loaded, with all of its links: after
      `Recipes(root_path)`, `get` fails only when nothing matches. */
  lemma GetAfterLoading(fx: Foreign, files: map<PosixPath, Value>, fuel: nat, scanned: seq<PosixPath>, v: Variant, path: string)
    requires NewRecipes(fx, files, fuel, scanned).Ok?
    ensures var st := NewRecipes(fx, files, fuel, scanned).value;
      GetRecipe(v, st, path).Err? ==> path !in st.recipes && FirstRegistered(Candidates(v, path), st.pathsMap).None?
  {
  }

  /** A recipe of baker_old.py: its file, type and paths, and the recipes it
      is a member of. */
  datatype OldRecipe = OldRecipe(location: PosixPath, kind: string, paths: seq<PosixPath>, memberOf: seq<OldRecipe>)

  /** `_load_recipe(file, first)`: with `first`, the `member_of` files are
      loaded with `first=False`, whose own `member_of` is always empty. */
  function LoadOldRecipe(files: map<PosixPath, Value>, file: PosixPath, first: bool): (r: Outcome<OldRecipe>)
    decreases if first then 2 else 0
    ensures r.Ok? ==> r.value.location == file
    ensures r.Ok? && !first ==> r.value.memberOf == []
    ensures r.Ok? && first ==> forall i :: 0 <= i < |r.value.memberOf| ==> r.value.memberOf[i].memberOf == []
  {
    if file !in files then Err(FileNotFound(PathStr(file)))
    else if !files[file].Dict? then Err(TypeError("object does not support item assignment"))
    else
      var data := files[file].fields;
      match (if first then LoadOldLinks(files, if "member_of" in data then data["member_of"] else List([])) else Ok([]))
      case Err(e) => Err(e)
      case Ok(memberOf) =>
        match Validate(data - {"member_of"}, [], false)
        case Err(e) => Err(e)
        case Ok(recipe) => Ok(OldRecipe(file, recipe.kind, recipe.paths, memberOf))
  }

  /** The `member_of` list of a first-level recipe, each loaded without
      its own links. */
  function LoadOldLinks(files: map<PosixPath, Value>, memberOf: Value): (r: Outcome<seq<OldRecipe>>)
    decreases 1, 1
    ensures r.Ok? ==> forall i :: 0 <= i < |r.value| ==> r.value[i].memberOf == []
  {
    match Describers.PathEntries(memberOf)
    case Err(e) => Err(e)
    case Ok(entries) => LoadOldEach(files, entries)
  }

  function LoadOldEach(files: map<PosixPath, Value>, entries: seq<Value>): (r: Outcome<seq<OldRecipe>>)
    decreases 1, 0, |entries|
    ensures r.Ok? ==> |r.value| == |entries|
    ensures r.Ok? ==> forall i :: 0 <= i < |r.value| ==> r.value[i].memberOf == [] && entries[i].Str? && r.value[i].location == ParsePath(entries[i].s)
  {
    if |entries| == 0 then Ok([])
    else if !entries[0].Str? then Err(TypeError("expected str, bytes or os.PathLike object"))
    else
      match LoadOldRecipe(files, ParsePath(entries[0].s), false)
      case Err(e) => Err(e)
      case Ok(first) =>
        match LoadOldEach(files, entries[1..])
        case Err(e) => Err(e)
        case Ok(rest) =>
          assert forall i :: 1 <= i < |entries| ==> entries[i] == entries[1..][i - 1];
          Ok([first] + rest)
  }

  /** The old store: recipes by file, and registered paths to files. */
  datatype OldStore = OldStore(recipes: map<PosixPath, OldRecipe>, pathsToLocation: map<PosixPath, PosixPath>)

  /** `_load_data(root_path)`: every scanned file loaded in order; a later file
      claiming a path takes it over. */
  function OldLoadAll(files: map<PosixPath, Value>, st: OldStore, scanned: seq<PosixPath>): (r: Outcome<OldStore>)
    decreases |scanned|
    ensures r.Ok? ==> st.recipes.Keys <= r.value.recipes.Keys && st.pathsToLocation.Keys <= r.value.pathsToLocation.Keys
    ensures r.Ok? && (forall p | p in st.pathsToLocation :: st.pathsToLocation[p] in st.recipes) ==>
      forall p | p in r.value.pathsToLocation :: r.value.pathsToLocation[p] in r.value.recipes
  {
    if |scanned| == 0 then Ok(st)
    else
      match LoadOldRecipe(files, scanned[0], true)
      case Err(e) => Err(e)
      case Ok(recipe) => OldLoadAll(files, OldRegister(st, scanned[0], recipe), scanned[1..])
  }

  /** Storing a loaded recipe under its file; the paths it claims now point
      to that file. */
  function OldRegister(st: OldStore, file: PosixPath, recipe: OldRecipe): (st': OldStore)
    ensures st'.recipes == st.recipes[file := recipe]
    ensures st'.pathsToLocation.Keys == st.pathsToLocation.Keys + set i | 0 <= i < |recipe.paths| :: recipe.paths[i]
    ensures forall p | p in st'.pathsToLocation ::
      st'.pathsToLocation[p] == file || (p in st.pathsToLocation && st'.pathsToLocation[p] == st.pathsToLocation[p])
  {
    var claimed := set i | 0 <= i < |recipe.paths| :: recipe.paths[i];
    OldStore(st.recipes[file := recipe],
             map p | p in st.pathsToLocation.Keys + claimed :: if p in claimed then file else st.pathsToLocation[p])
  }

  /** `Recipes.get(path)` of baker_old.py. As written, the exact test compares
      the `str` argument with `Path` keys and never holds, so only proper
      ancestors match; corrected, a recipe file given directly is returned. */
  function OldGet(v: Variant, st: OldStore, path: string): (r: Outcome<OldRecipe>)
    requires forall p | p in st.pathsToLocation :: st.pathsToLocation[p] in st.recipes
    ensures v.Corrected? && ParsePath(path) in st.recipes ==> r == Ok(st.recipes[ParsePath(path)])
    ensures (v.AsWritten? || ParsePath(path) !in st.recipes) ==>
      (FirstRegistered(Parents(ParsePath(path)), st.pathsToLocation).None? <==> r.Err?)
    ensures (v.AsWritten? || ParsePath(path) !in st.recipes) && r.Ok? ==>
      var ps := Parents(ParsePath(path));
      r.value == st.recipes[st.pathsToLocation[ps[FirstRegistered(ps, st.pathsToLocation).value]]]
  {
    var p := ParsePath(path);
    if v.Corrected? && p in st.recipes then Ok(st.recipes[p])
    else
      var ps := Parents(p);
      match FirstRegistered(ps, st.pathsToLocation)
      case None => Err(ValueError("No Recipe found for path"))
      case Some(i) => Ok(st.recipes[st.pathsToLocation[ps[i]]])
  }

  /** As written, a recipe file asked for by its own path is not found when
      no ancestor directory is registered; corrected, it is returned. */
  lemma OldRecipeFileIgnored(path: string, r: OldRecipe)
    ensures var st := OldStore(map[ParsePath(path) := r], map[]);
      OldGet(AsWritten, st, path).Err? && OldGet(Corrected, st, path) == Ok(r)
  {
  }
}
