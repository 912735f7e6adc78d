/** The two decorators of asset_scanner/core/decorators.py that let
    pre-processors rewrite a processor's arguments and post-processors rewrite
    its response.

    A call is `self` plus positional arguments `args` plus keyword arguments
    `kwargs`. The processors themselves are functions. The model takes the
    lists the wrappers read from `kwargs["pre_processors"]` and
    `kwargs["post_processors"]` (empty when the key is absent) as separate
    parameters. The keyword arguments are still passed on unchanged. */
module Decorators {
  import opened Wrappers
  import opened Values

  type Kwargs = map<string, Value>

  /** A pre-processor's `run(*args, **kwargs)`, returning the next `(args, kwargs)`. */
  type Pre<!A> = (seq<A>, Kwargs) -> (seq<A>, Kwargs)

  /** A post-processor's `run(*args, source_dict=response, **kwargs)`. */
  type Post<!A, !R> = (seq<A>, R, Kwargs) -> R

  /** The pre-processor loop: each maps the arguments to the next ones. */
  function Preprocess<A>(pres: seq<Pre<A>>, args: seq<A>, kwargs: Kwargs): (seq<A>, Kwargs)
    decreases |pres|
  {
    if |pres| == 0 then (args, kwargs)
    else
      var next := pres[0](args, kwargs);
      Preprocess(pres[1..], next.0, next.1)
  }

  /** `accepts_preprocessors(func)` applied to `self, *args, **kwargs`: the
      function sees `self` followed by the final arguments. */
  function AcceptsPreprocessors<S, A, R>(func: (S, seq<A>, Kwargs) -> R, pres: seq<Pre<A>>, self: S, args: seq<A>, kwargs: Kwargs): (r: R)
    ensures |pres| == 0 ==> r == func(self, args, kwargs)
    ensures |pres| > 0 ==>
      r == AcceptsPreprocessors(func, pres[1..], self, pres[0](args, kwargs).0, pres[0](args, kwargs).1)
  {
    var final := Preprocess(pres, args, kwargs);
    func(self, final.0, final.1)
  }

  /** The pre-processors run in list order: running a list is running its
      first part, then its second part on the result. */
  lemma {:induction false} PreprocessAppend<A>(p: seq<Pre<A>>, q: seq<Pre<A>>, args: seq<A>, kwargs: Kwargs)
    ensures Preprocess(p + q, args, kwargs) ==
      Preprocess(q, Preprocess(p, args, kwargs).0, Preprocess(p, args, kwargs).1)
    decreases |p|
  {
    if |p| == 0 {
      assert p + q == q;
    } else {
      var next := p[0](args, kwargs);
      assert (p + q)[0] == p[0];
      assert (p + q)[1..] == p[1..] + q;
      PreprocessAppend(p[1..], q, next.0, next.1);
    }
  }

  /** The post-processor loop: each receives the previous response. */
  function Postprocess<A, R>(posts: seq<Post<A, R>>, args: seq<A>, response: R, kwargs: Kwargs): R
    decreases |posts|
  {
    if |posts| == 0 then response
    else Postprocess(posts[1..], args, posts[0](args, response, kwargs), kwargs)
  }

  /** `accepts_postprocessors(func)` applied to `self, *args, **kwargs`: the
      main call gets every argument, and the post-processors get the
      arguments without `self` and the response so far. Passing `source_dict`
      both explicitly and in `kwargs` raises TypeError. */
  function AcceptsPostprocessors<S, A, R>(func: (S, seq<A>, Kwargs) -> R, posts: seq<Post<A, R>>, self: S, args: seq<A>, kwargs: Kwargs): (r: Outcome<R>)
    ensures |posts| == 0 ==> r == Ok(func(self, args, kwargs))
    ensures |posts| > 0 && "source_dict" in kwargs ==> r.Err?
    ensures |posts| > 0 && "source_dict" !in kwargs ==>
      r == Ok(Postprocess(posts[1..], args, posts[0](args, func(self, args, kwargs), kwargs), kwargs))
  {
    var response := func(self, args, kwargs);
    if |posts| > 0 && "source_dict" in kwargs then Err(TypeError("got multiple values for keyword argument 'source_dict'"))
    else Ok(Postprocess(posts, args, response, kwargs))
  }

  /** The post-processors run in list order, each on the previous response. */
  lemma {:induction false} PostprocessAppend<A, R>(p: seq<Post<A, R>>, q: seq<Post<A, R>>, args: seq<A>, response: R, kwargs: Kwargs)
    ensures Postprocess(p + q, args, response, kwargs) == Postprocess(q, args, Postprocess(p, args, response, kwargs), kwargs)
    decreases |p|
  {
    if |p| == 0 {
      assert p + q == q;
    } else {
      assert (p + q)[0] == p[0];
      assert (p + q)[1..] == p[1..] + q;
      PostprocessAppend(p[1..], q, args, p[0](args, response, kwargs), kwargs);
    }
  }
}
