/** What `dict_merge` promises, key by key, for both variants, and how the two
    variants relate. */
module MergeProperties {
  import opened Wrappers
  import opened Values
  import opened Merge

  predicate NoDuplicates(s: seq<Value>) {
    forall i, j :: 0 <= i < j < |s| ==> s[i] != s[j]
  }

  /** The list branch keeps the existing list as a prefix, ends up holding
      exactly the elements of both lists, and adds no duplicates. */
  lemma {:induction false} AppendNewSpec(acc: seq<Value>, xs: seq<Value>)
    ensures acc <= AppendNew(acc, xs)
    ensures forall v :: v in AppendNew(acc, xs) <==> v in acc || v in xs
    ensures NoDuplicates(acc) ==> NoDuplicates(AppendNew(acc, xs))
    decreases |xs|
  {
    if |xs| > 0 {
      var acc' := if xs[0] in acc then acc else acc + [xs[0]];
      AppendNewSpec(acc', xs[1..]);
      assert forall v :: v in xs <==> v == xs[0] || v in xs[1..];
    }
  }

  /** How one visited key of a merge step comes out when the accumulator holds a
      truthy value there: the step succeeds only if the key does, and then
      holds the key's merged value; a failing key is reported with its error. */
  lemma MergeDictsAt(rule: Rule, x: Body, y: Body, addKeys: bool, k: string)
    requires k in StepKeys(x, y, addKeys) && k in x && Truthy(x[k])
    ensures MergeDicts(rule, x, y, addKeys).Ok? ==>
      MergeValue(rule, x[k], y[k], addKeys).Ok?
      && MergeDicts(rule, x, y, addKeys).value[k] == MergeValue(rule, x[k], y[k], addKeys).value
    ensures MergeValue(rule, x[k], y[k], addKeys).Err? ==>
      MergeDicts(rule, x, y, addKeys).Err?
      && k in MergeDicts(rule, x, y, addKeys).error.failures
      && MergeDicts(rule, x, y, addKeys).error.failures[k] == MergeValue(rule, x[k], y[k], addKeys).error
  {
    var rs := KeyOutcomes(rule, x, y, addKeys);
    assert rs[k] == MergeValue(rule, x[k], y[k], addKeys);
  }

  /** Same-type lists: the incoming elements not yet present are appended, the
      existing list stays a prefix, and no duplicate is introduced. */
  lemma ListsAppendWithoutDuplicates(rule: Rule, xs: seq<Value>, ys: seq<Value>, addKeys: bool)
    requires xs != []
    ensures MergeValue(rule, List(xs), List(ys), addKeys).Ok?
    ensures var r := MergeValue(rule, List(xs), List(ys), addKeys).value;
      r.List? && xs <= r.items
      && (forall v :: v in r.items <==> v in xs || v in ys)
      && (NoDuplicates(xs) ==> NoDuplicates(r.items))
  {
    AppendNewSpec(xs, ys);
  }

  /** Strict variant: two truthy values of different Python types at one key
      always make the merge fail, naming that key and both types. */
  lemma StrictConflictNamesKey(x: Body, y: Body, addKeys: bool, k: string)
    requires k in StepKeys(x, y, addKeys) && k in x && Truthy(x[k])
    requires TypeOf(x[k]) != TypeOf(y[k])
    ensures MergeDicts(Strict, x, y, addKeys).Err?
    ensures k in MergeDicts(Strict, x, y, addKeys).error.failures
    ensures MergeDicts(Strict, x, y, addKeys).error.failures[k] == TypeMismatch(TypeOf(x[k]), TypeOf(y[k]))
  {
    MergeDictsAt(Strict, x, y, addKeys, k);
  }

  /** Later argument wins: a truthy scalar (not a list or dict) replaced by a
      value of the same Python type takes the later value, in both variants. */
  lemma LaterScalarWins(rule: Rule, x: Body, y: Body, addKeys: bool, k: string)
    requires k in StepKeys(x, y, addKeys) && k in x && Truthy(x[k])
    requires TypeOf(x[k]) == TypeOf(y[k]) && !x[k].List? && !x[k].Dict?
    ensures MergeDicts(rule, x, y, addKeys).Ok? ==> MergeDicts(rule, x, y, addKeys).value[k] == y[k]
  {
    MergeDictsAt(rule, x, y, addKeys, k);
  }

  /** Nested dicts merge recursively with the same `add_keys` flag. */
  lemma NestedDictsMerge(rule: Rule, x: Body, y: Body, addKeys: bool, k: string)
    requires k in StepKeys(x, y, addKeys) && k in x && Truthy(x[k])
    requires x[k].Dict? && y[k].Dict?
    ensures MergeDicts(rule, x, y, addKeys).Ok? ==>
      MergeDicts(rule, x[k].fields, y[k].fields, addKeys).Ok?
      && MergeDicts(rule, x, y, addKeys).value[k] == Dict(MergeDicts(rule, x[k].fields, y[k].fields, addKeys).value)
  {
    MergeDictsAt(rule, x, y, addKeys, k);
  }

  /** Lenient variant, as intended: a truthy scalar meeting a list whose first
      element has the scalar's type is folded into that list once. */
  lemma LenientFoldsScalar(a: Value, ys: seq<Value>, addKeys: bool)
    requires Truthy(a) && !a.List?
    requires ys != [] && IsInstance(ys[0], TypeOf(a))
    ensures MergeValue(Lenient, a, List(ys), addKeys).Ok?
    ensures var r := MergeValue(Lenient, a, List(ys), addKeys).value;
      r.List? && ys <= r.items && a in r.items && |r.items| <= |ys| + 1
      && (a !in ys ==> r.items == ys + [a])
  {
  }

  /** Lenient variant, as written: the same case drops the incoming list and
      keeps the scalar, because the list the scalar is appended to is never
      stored. */
  lemma LenientAsWrittenKeepsScalar(a: Value, ys: seq<Value>, addKeys: bool)
    requires Truthy(a) && !a.List?
    requires ys != [] && IsInstance(ys[0], TypeOf(a))
    ensures MergeValue(LenientAsWritten, a, List(ys), addKeys) == Ok(a)
  {
  }

  /** The concrete input: merging `{"a": "x"}` with `{"a": ["y"]}`. The code as
      written returns `{"a": "x"}`; the intended result is `{"a": ["y", "x"]}`. */
  lemma ScalarFoldCounterexample()
    ensures DictMerge(LenientAsWritten, [map["a" := Str("x")], map["a" := List([Str("y")])]], true)
      == Ok(map["a" := Str("x")])
    ensures DictMerge(Lenient, [map["a" := Str("x")], map["a" := List([Str("y")])]], true)
      == Ok(map["a" := List([Str("y"), Str("x")])])
  {
    var x, y := map["a" := Str("x")], map["a" := List([Str("y")])];
    assert [x, y][1..] == [y];
    assert MergeValue(LenientAsWritten, Str("x"), List([Str("y")]), true) == Ok(Str("x"));
    assert Str("x") !in [Str("y")];
    LenientFoldsScalar(Str("x"), [Str("y")], true);
    assert [Str("y")] + [Str("x")] == [Str("y"), Str("x")];
    assert MergeValue(Lenient, Str("x"), List([Str("y")]), true) == Ok(List([Str("y"), Str("x")]));
    SingleKeyStep(LenientAsWritten, "a", Str("x"), List([Str("y")]));
    SingleKeyStep(Lenient, "a", Str("x"), List([Str("y")]));
  }

  /** Merging two one-key dicts that share their key. */
  lemma SingleKeyStep(rule: Rule, k: string, a: Value, b: Value)
    requires Truthy(a) && MergeValue(rule, a, b, true).Ok?
    ensures MergeFold(rule, map[k := a], [map[k := b]], true) == Ok(map[k := MergeValue(rule, a, b, true).value])
  {
    var x, y := map[k := a], map[k := b];
    var rs := KeyOutcomes(rule, x, y, true);
    assert rs.Keys == {k};
    assert rs[k] == MergeValue(rule, a, b, true);
    var r := MergeDicts(rule, x, y, true);
    assert r.Ok?;
    assert r.value.Keys == {k};
    assert r.value == map[k := MergeValue(rule, a, b, true).value];
    assert [y][1..] == [];
  }

  /** Lenient variant: any other mismatch fails — with IndexError when the
      incoming list is empty, and otherwise with a TypeError naming both types. */
  lemma LenientOtherMismatchFails(rule: Rule, a: Value, b: Value, addKeys: bool)
    requires !rule.Strict? && Truthy(a)
    requires !IsInstance(b, TypeOf(a))
    requires !(b.List? && b.items != [] && IsInstance(b.items[0], TypeOf(a)))
    requires !(a.List? && IsInstance(a.items[0], TypeOf(b)))
    ensures MergeValue(rule, a, b, addKeys) ==
      if b.List? && b.items == [] then Err(IndexError) else Err(TypeMismatch(TypeOf(a), TypeOf(b)))
  {
  }

  /** Wherever the strict variant succeeds, the lenient one (as written or as
      intended) succeeds with the same value: leniency only rescues mismatches. */
  lemma {:induction false} StrictRefinesLenientValue(rule: Rule, a: Value, b: Value, addKeys: bool)
    requires MergeValue(Strict, a, b, addKeys).Ok?
    ensures MergeValue(rule, a, b, addKeys) == MergeValue(Strict, a, b, addKeys)
    decreases a, 3
  {
    if a.Dict? && b.Dict? {
      StrictRefinesLenientDicts(rule, a.fields, b.fields, addKeys);
    }
  }

  lemma {:induction false} StrictRefinesLenientDicts(rule: Rule, x: Body, y: Body, addKeys: bool)
    requires MergeDicts(Strict, x, y, addKeys).Ok?
    ensures MergeDicts(rule, x, y, addKeys) == MergeDicts(Strict, x, y, addKeys)
    decreases Dict(x), 2
  {
    var rs, ss := KeyOutcomes(rule, x, y, addKeys), KeyOutcomes(Strict, x, y, addKeys);
    forall k | k in ss
      ensures rs[k] == ss[k]
    {
      if k in x && Truthy(x[k]) {
        MergeDictsAt(Strict, x, y, addKeys, k);
        StrictRefinesLenientValue(rule, x[k], y[k], addKeys);
      }
    }
    assert rs == ss;
  }
}
