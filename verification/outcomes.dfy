/** Results of evaluating a step of the transformer.

  A step either produces a value, raises one of the Python exceptions the
  transformer can reach, or returns normally after formatting a JSON value that
  is not a string with `str()`; the text such a run prints is not described by
  this model, so it is kept apart as `Unmodelled`. */
module Outcomes {

  datatype Option<+T> = None | Some(value: T)

  /** The exceptions the transformer raises on some inputs. */
  datatype PyError =
    | AttributeError  // `.get` called on a value that is not a dict
    | TypeError       // iterating a non-iterable, `re.search` on a non-str, `int + str`

  datatype Outcome<+T> = Ok(value: T) | Raises(error: PyError) | Unmodelled

  /** A step that yields one value, seen as a step that yields a sequence. */
  function Lift<T>(o: Outcome<T>): (r: Outcome<seq<T>>)
    ensures r.Ok? <==> o.Ok?
    ensures r.Ok? ==> r.value == [o.value]
    ensures !r.Ok? ==> r == (match o case Raises(e) => Raises(e) case _ => Unmodelled)
  {
    match o
    case Ok(v) => Ok([v])
    case Raises(e) => Raises(e)
    case Unmodelled => Unmodelled
  }

  /** Sequential composition of two steps that each append to an output list:
      an exception in the first step aborts the second; an unmodelled first
      step still lets the second raise; otherwise the outputs are concatenated. */
  function Then<T>(first: Outcome<seq<T>>, rest: Outcome<seq<T>>): (r: Outcome<seq<T>>)
    ensures r.Ok? <==> first.Ok? && rest.Ok?
    ensures r.Ok? ==> r.value == first.value + rest.value
    ensures r.Raises? <==> first.Raises? || rest.Raises?
    ensures first.Raises? ==> r == first
    ensures !first.Raises? && rest.Raises? ==> r == rest
  {
    match first
    case Raises(e) => Raises(e)
    case Unmodelled => if rest.Raises? then rest else Unmodelled
    case Ok(a) =>
      match rest
      case Ok(b) => Ok(a + b)
      case Raises(e) => Raises(e)
      case Unmodelled => Unmodelled
  }

  /** Element `k` is the first whose step raises. */
  predicate RaisesFirst<X, Y>(xs: seq<X>, step: X -> Outcome<Y>, k: int) {
    0 <= k < |xs| && step(xs[k]).Raises? && forall i :: 0 <= i < k ==> !step(xs[i]).Raises?
  }

  /** The values of steps that all succeed, in order. */
  function Values<X, Y>(xs: seq<X>, step: X -> Outcome<Y>): (vs: seq<Y>)
    requires forall i :: 0 <= i < |xs| ==> step(xs[i]).Ok?
    ensures |vs| == |xs| && forall i :: 0 <= i < |xs| ==> vs[i] == step(xs[i]).value
  {
    seq(|xs|, i requires 0 <= i < |xs| && step(xs[i]).Ok? => step(xs[i]).value)
  }

  /** The lists of `ss` concatenated in order. */
  function Flatten<Y>(ss: seq<seq<Y>>): seq<Y>
    decreases |ss|
  {
    if |ss| == 0 then [] else ss[0] + Flatten(ss[1..])
  }

  /** A loop whose body `step` appends outputs for one element: the elements are
      processed in order, the first exception ends the loop and is the loop's
      exception, and a loop in which every step succeeds yields all outputs. */
  function ForEach<X, Y>(xs: seq<X>, step: X -> Outcome<seq<Y>>): (r: Outcome<seq<Y>>)
    ensures r.Ok? <==> forall i :: 0 <= i < |xs| ==> step(xs[i]).Ok?
    ensures r.Ok? ==> r.value == Flatten(Values(xs, step))
    ensures r.Raises? <==> exists i :: 0 <= i < |xs| && step(xs[i]).Raises?
    ensures forall k :: RaisesFirst(xs, step, k) ==> r == step(xs[k])
    decreases |xs|
  {
    if |xs| == 0 then Ok([])
    else
      var r := Then(step(xs[0]), ForEach(xs[1..], step));
      assert forall i :: 1 <= i < |xs| ==> xs[1..][i - 1] == xs[i];
      assert r.Ok? ==> Values(xs, step)[1..] == Values(xs[1..], step);
      r
  }

  /** `ForEach` for a body that outputs exactly one value per element. */
  function MapEach<X, Y>(xs: seq<X>, step: X -> Outcome<Y>): (r: Outcome<seq<Y>>)
    ensures r.Ok? <==> forall i :: 0 <= i < |xs| ==> step(xs[i]).Ok?
    ensures r.Ok? ==> |r.value| == |xs|
    ensures r.Ok? ==> forall i :: 0 <= i < |xs| ==> r.value[i] == step(xs[i]).value
    ensures r.Raises? <==> exists i :: 0 <= i < |xs| && step(xs[i]).Raises?
    ensures forall k :: RaisesFirst(xs, step, k) ==> r == Raises(step(xs[k]).error)
    decreases |xs|
  {
    if |xs| == 0 then Ok([])
    else
      var r := Then(Lift(step(xs[0])), MapEach(xs[1..], step));
      assert forall i :: 1 <= i < |xs| ==> xs[1..][i - 1] == xs[i];
      r
  }
}
