/** Option and Result, the renderer's error taxonomy, and the one traversal
    shape every loop of the renderer follows: walk a sequence in order, stop at
    the first error, and keep the items a step chooses to emit. */
module Prelude {

  datatype Option<+T> = None | Some(value: T)

  /** The exceptions the renderer raises. All but the last two are the
      `ArgumentError`s of the resolver; `ClassNotAppendable` is the
      `NoMethodError`/`TypeError` that `header_cell_options[:class] << ...`
      raises when the class option is not a String, and `MissingTileConfig`
      the `NoMethodError` of calling `block` on a nil tile config. */
  datatype Error =
    | MissingSource(column: string)   // "Either block or binding_path must be given ..."
    | NilBindingPath(column: string)  // "Binding path is nil for column ..."
    | NotResponding(name: string)     // "Entity ... doesn't respond to ..."
    | UnknownPath(path: string)       // "Don't know how to extract value from value path ..."
    | ClassNotAppendable(column: string)
    | MissingTileConfig

  predicate IsArgumentError(e: Error) {
    e.MissingSource? || e.NilBindingPath? || e.NotResponding? || e.UnknownPath?
  }

  datatype Result<+T> = Ok(value: T) | Err(error: Error) {
    predicate IsFailure() { Err? }
    function PropagateFailure<U>(): Result<U> requires Err? { Err(error) }
    function Extract(): T requires Ok? { value }
  }

  /** A step that always emits its item when it succeeds. */
  function Lift<B>(r: Result<B>): Result<Option<B>> {
    match r
    case Ok(b) => Ok(Some(b))
    case Err(e) => Err(e)
  }

  /** Walks `xs` front to back; step `f(i, xs[i])` either fails (the walk stops
      with that error), emits an item, or emits nothing. Defined on the last
      element so that a loop over `xs[..i]` matches it step by step. */
  function Traverse<A, B>(xs: seq<A>, f: (nat, A) -> Result<Option<B>>): (r: Result<seq<B>>)
    ensures r.Ok? ==> |r.value| <= |xs|
  {
    if |xs| == 0 then Ok([])
    else
      var done :- Traverse(xs[..|xs| - 1], f);
      var step :- f(|xs| - 1, xs[|xs| - 1]);
      Ok(if step.Some? then done + [step.value] else done)
  }

  /** One more step of the walk over a prefix. */
  lemma TraverseStep<A, B>(xs: seq<A>, f: (nat, A) -> Result<Option<B>>, i: nat)
    requires i < |xs|
    ensures Traverse(xs[..i + 1], f) ==
      match Traverse(xs[..i], f)
      case Err(e) => Err(e)
      case Ok(done) =>
        match f(i, xs[i])
        case Err(e) => Err(e)
        case Ok(step) => Ok(if step.Some? then done + [step.value] else done)
  {
    assert xs[..i + 1][..i] == xs[..i];
  }

  /** Once a prefix of the walk has failed, the whole walk fails with the
      same error: nothing after the first failure is looked at. */
  lemma {:induction false} TraverseErrSticks<A, B>(xs: seq<A>, f: (nat, A) -> Result<Option<B>>, i: nat)
    requires i <= |xs| && Traverse(xs[..i], f).Err?
    ensures Traverse(xs, f) == Traverse(xs[..i], f)
  {
    if i < |xs| {
      var n := |xs|;
      assert xs[..n][..n - 1] == xs[..n - 1];
      assert xs[..n - 1][..i] == xs[..i];
      TraverseErrSticks(xs[..n - 1], f, i);
      assert xs[..n] == xs;
    } else {
      assert xs[..i] == xs;
    }
  }

  /** A failed walk failed at its first failing step: every step before it
      succeeded, and its error is the walk's. */
  lemma {:induction false} TraverseErrIsFirst<A, B>(xs: seq<A>, f: (nat, A) -> Result<Option<B>>)
    requires Traverse(xs, f).Err?
    ensures exists i :: 0 <= i < |xs| && f(i, xs[i]) == Err(Traverse(xs, f).error) &&
                        forall j :: 0 <= j < i ==> f(j, xs[j]).Ok?
  {
    var n := |xs|;
    var front := xs[..n - 1];
    assert forall j :: 0 <= j < n - 1 ==> front[j] == xs[j];
    if Traverse(front, f).Err? {
      TraverseErrIsFirst(front, f);
      var i :| 0 <= i < n - 1 && f(i, front[i]) == Err(Traverse(front, f).error) &&
               forall j :: 0 <= j < i ==> f(j, front[j]).Ok?;
      assert f(i, xs[i]) == Err(Traverse(xs, f).error);
    } else {
      TraverseOkIff(front, f);
      assert f(n - 1, xs[n - 1]) == Err(Traverse(xs, f).error);
    }
  }

  /** A walk succeeds exactly when every step succeeds. */
  lemma {:induction false} TraverseOkIff<A, B>(xs: seq<A>, f: (nat, A) -> Result<Option<B>>)
    ensures Traverse(xs, f).Ok? <==> forall i :: 0 <= i < |xs| ==> f(i, xs[i]).Ok?
  {
    if |xs| > 0 {
      var n := |xs|;
      TraverseOkIff(xs[..n - 1], f);
      assert forall i :: 0 <= i < n - 1 ==> xs[..n - 1][i] == xs[i];
    }
  }

  /** When every step emits an item, the walk emits one item per element, in
      order. */
  lemma {:induction false} TraverseTotal<A, B>(xs: seq<A>, f: (nat, A) -> Result<Option<B>>)
    requires Traverse(xs, f).Ok?
    requires forall i :: 0 <= i < |xs| ==> f(i, xs[i]).Ok? ==> f(i, xs[i]).value.Some?
    ensures |Traverse(xs, f).value| == |xs|
    ensures forall i :: 0 <= i < |xs| ==> f(i, xs[i]) == Ok(Some(Traverse(xs, f).value[i]))
  {
    if |xs| > 0 {
      var n := |xs|;
      assert forall i :: 0 <= i < n - 1 ==> xs[..n - 1][i] == xs[i];
      TraverseTotal(xs[..n - 1], f);
    }
  }

  /** The step that emits whatever a precomputed step result says. */
  function Pick<B>(): (nat, Result<Option<B>>) -> Result<Option<B>> {
    (_: nat, r: Result<Option<B>>) => r
  }

  /** The walk over already computed step results: the first error, or the
      emitted items in order. */
  function Collect<B>(rs: seq<Result<Option<B>>>): Result<seq<B>> {
    Traverse(rs, Pick())
  }

  /** A walk is the collection of its step results. */
  lemma {:induction false} TraverseIsCollect<A, B>(xs: seq<A>, f: (nat, A) -> Result<Option<B>>, rs: seq<Result<Option<B>>>)
    requires |rs| == |xs| && forall i :: 0 <= i < |xs| ==> rs[i] == f(i, xs[i])
    ensures Traverse(xs, f) == Collect(rs)
  {
    if |xs| > 0 {
      var n := |xs|;
      assert forall i :: 0 <= i < n - 1 ==> rs[..n - 1][i] == rs[i] && xs[..n - 1][i] == xs[i];
      TraverseIsCollect(xs[..n - 1], f, rs[..n - 1]);
    }
  }

  /** One more step of a loop that collects step results: an error is the
      result of the whole collection, nothing or an item extends the prefix. */
  lemma CollectStep<B>(rs: seq<Result<Option<B>>>, i: nat, acc: seq<B>)
    requires i < |rs| && Collect(rs[..i]) == Ok(acc)
    ensures rs[i].Err? ==> Collect(rs) == Err(rs[i].error)
    ensures rs[i] == Ok(None) ==> Collect(rs[..i + 1]) == Ok(acc)
    ensures rs[i].Ok? && rs[i].value.Some? ==>
      Collect(rs[..i + 1]) == Ok(acc + [rs[i].value.value]) && (acc + [rs[i].value.value])[..|acc|] == acc
  {
    TraverseStep(rs, Pick(), i);
    if rs[i].Err? {
      TraverseErrSticks(rs, Pick(), i + 1);
    } else if rs[i].value.Some? {
      assert (acc + [rs[i].value.value])[..|acc|] == acc;
    }
  }
}
