/** `dict_merge`, the configuration merge of both harvesters.

    stac_generator/core/utils.py holds a lenient variant that folds a scalar
    into a list of the same element type; asset_scanner/core/utils.py holds a
    strict variant in which every type mismatch is an error. Both fold the
    argument dicts left to right into a copy of the first one, key by key:

    - a key that is missing or falsy in the accumulator takes the incoming value;
    - nested dicts merge recursively with the same `add_keys` flag;
    - lists gain the incoming elements they do not already hold;
    - any other value is overwritten by the later argument.

    Keys of one dict are handled independently of each other, so the model
    computes every key at once. Python raises for the first failing key in
    insertion order; the model reports every failing key in a MergeConflict. */
module Merge {
  import opened Wrappers
  import opened Values

  /** Which `dict_merge` is meant. `LenientAsWritten` is the stac_generator code
      as it stands; `Lenient` is the same code with the scalar-into-list fold
      storing its list, which is what the branch evidently intends. */
  datatype Rule = Strict | LenientAsWritten | Lenient

  /** The type test that sends a key to the mismatch branch. */
  predicate Mismatch(rule: Rule, a: Value, b: Value) {
    if rule.Strict? then TypeOf(a) != TypeOf(b) else !IsInstance(b, TypeOf(a))
  }

  /** `acc` extended by the elements of `xs` it does not hold yet, in order
      (the `if list_value not in ...: append` loop). */
  function AppendNew(acc: seq<Value>, xs: seq<Value>): (r: seq<Value>)
    decreases |xs|
    ensures |acc| <= |r| <= |acc| + |xs| && r[..|acc|] == acc
    ensures forall i :: |acc| <= i < |r| ==> r[i] !in acc && r[i] in xs
  {
    if |xs| == 0 then acc
    else AppendNew(if xs[0] in acc then acc else acc + [xs[0]], xs[1..])
  }

  /** The mismatch branch of the lenient variant. */
  function Mismatched(rule: Rule, a: Value, b: Value): (r: Outcome<Value>)
    ensures rule.Strict? ==> r == Err(TypeMismatch(TypeOf(a), TypeOf(b)))
    ensures b == List([]) ==> r.Err?
    ensures r.Ok? ==>
      || (rule.LenientAsWritten? && r.value == a)
      || (r.value.List? && b.List? && a in r.value.items && forall x :: x in b.items ==> x in r.value.items)
      || (r.value.List? && a.List? && b in r.value.items && forall x :: x in a.items ==> x in r.value.items)
  {
    if rule.Strict? then Err(TypeMismatch(TypeOf(a), TypeOf(b)))
    else if b.List? && |b.items| == 0 then Err(IndexError)
    else if b.List? && IsInstance(b.items[0], TypeOf(a)) then
      if rule.LenientAsWritten? then Ok(a)
      else Ok(List(if a in b.items then b.items else b.items + [a]))
    else if a.List? && |a.items| > 0 && IsInstance(a.items[0], TypeOf(b)) then
      Ok(List(if b in a.items then a.items else a.items + [b]))
    else Err(TypeMismatch(TypeOf(a), TypeOf(b)))
  }

  /** The value a key ends up with when the accumulator holds the truthy `a`
      and the next dict holds `b`. */
  function MergeValue(rule: Rule, a: Value, b: Value, addKeys: bool): (r: Outcome<Value>)
    decreases a, 3
    ensures !Mismatch(rule, a, b) && !a.Dict? && !a.List? ==> r == Ok(b)
    ensures !Mismatch(rule, a, b) && a.List? && b.List? ==>
      r.Ok? && r.value.List? && a.items <= r.value.items
      && forall x :: x in r.value.items ==> x in a.items || x in b.items
    ensures r.Ok? && !Mismatch(rule, a, b) && a.Dict? && b.Dict? ==>
      r.value.Dict? && r.value.fields.Keys == a.fields.Keys + StepKeys(a.fields, b.fields, addKeys)
  {
    if Mismatch(rule, a, b) then Mismatched(rule, a, b)
    else if a.Dict? && b.Dict? then
      match MergeDicts(rule, a.fields, b.fields, addKeys)
      case Ok(m) => Ok(Dict(m))
      case Err(e) => Err(e)
    else if a.List? && b.List? then Ok(List(AppendNew(a.items, b.items)))
    else Ok(b)
  }

  /** The keys of `y` one merge step visits. */
  function StepKeys(x: Body, y: Body, addKeys: bool): set<string> {
    if addKeys then y.Keys else y.Keys * x.Keys
  }

  /** The outcome for key `k`, whose incoming value is `v`. */
  function KeyStep(rule: Rule, x: Body, k: string, v: Value, addKeys: bool): Outcome<Value>
    decreases Dict(x), 0
  {
    if k in x && Truthy(x[k]) then MergeValue(rule, x[k], v, addKeys) else Ok(v)
  }

  /** The outcome of every visited key. */
  function KeyOutcomes(rule: Rule, x: Body, y: Body, addKeys: bool): (rs: map<string, Outcome<Value>>)
    decreases Dict(x), 1
    ensures rs.Keys == StepKeys(x, y, addKeys)
    ensures forall k | k in rs :: rs[k] == KeyStep(rule, x, k, y[k], addKeys)
  {
    map k | k in StepKeys(x, y, addKeys) :: KeyStep(rule, x, k, y[k], addKeys)
  }

  /** One merge step: `dict_merge(x, y, add_keys=addKeys)`. */
  function MergeDicts(rule: Rule, x: Body, y: Body, addKeys: bool): (r: Outcome<Body>)
    decreases Dict(x), 2
    ensures r.Ok? ==> r.value.Keys == x.Keys + StepKeys(x, y, addKeys)
    ensures r.Ok? ==> forall k :: k in x && k !in StepKeys(x, y, addKeys) ==> r.value[k] == x[k]
    ensures r.Ok? ==> forall k :: k in StepKeys(x, y, addKeys) && (k !in x || !Truthy(x[k])) ==> r.value[k] == y[k]
    ensures r.Err? ==> r.error.MergeConflict? && r.error.failures != map[]
    ensures r.Err? ==> forall k :: k in r.error.failures ==> k in StepKeys(x, y, addKeys) && k in x && Truthy(x[k])
  {
    var keys := StepKeys(x, y, addKeys);
    var rs := KeyOutcomes(rule, x, y, addKeys);
    if forall k | k in rs :: rs[k].Ok? then
      Ok(map k | k in x.Keys + keys :: if k in rs then rs[k].value else x[k])
    else
      var failures := map k | k in rs && rs[k].Err? :: rs[k].error;
      assert exists k :: k in rs && rs[k].Err? && k in failures;
      Err(MergeConflict(failures))
  }

  /** Folding the remaining dicts into the accumulator, left to right. */
  function MergeFold(rule: Rule, acc: Body, rest: seq<Body>, addKeys: bool): (r: Outcome<Body>)
    decreases |rest|
    ensures rest == [] ==> r == Ok(acc)
    ensures r.Err? ==> r.error.MergeConflict? && r.error.failures != map[]
  {
    if |rest| == 0 then Ok(acc)
    else match MergeDicts(rule, acc, rest[0], addKeys)
      case Ok(acc') => MergeFold(rule, acc', rest[1..], addKeys)
      case Err(e) => Err(e)
  }

  /** `dict_merge(*dicts, add_keys=addKeys)`. */
  function DictMerge(rule: Rule, dicts: seq<Body>, addKeys: bool): (r: Outcome<Body>)
    ensures |dicts| < 2 ==> r == Err(AssertionError)
    ensures |dicts| >= 2 && r.Ok? && !addKeys ==> r.value.Keys == dicts[0].Keys
    ensures |dicts| >= 2 && r.Ok? ==> dicts[0].Keys <= r.value.Keys
  {
    if |dicts| < 2 then Err(AssertionError)
    else
      var r := MergeFold(rule, dicts[0], dicts[1..], addKeys);
      FoldKeys(rule, dicts[0], dicts[1..], addKeys);
      r
  }

  /** Keys only grow along the fold, and not at all without `add_keys`. */
  lemma {:induction false} FoldKeys(rule: Rule, acc: Body, rest: seq<Body>, addKeys: bool)
    ensures MergeFold(rule, acc, rest, addKeys).Ok? ==> acc.Keys <= MergeFold(rule, acc, rest, addKeys).value.Keys
    ensures MergeFold(rule, acc, rest, addKeys).Ok? && !addKeys ==> MergeFold(rule, acc, rest, addKeys).value.Keys == acc.Keys
    decreases |rest|
  {
    if |rest| > 0 {
      var s := MergeDicts(rule, acc, rest[0], addKeys);
      if s.Ok? {
        FoldKeys(rule, s.value, rest[1..], addKeys);
      }
    }
  }
}
