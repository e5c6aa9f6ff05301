/** Failure-compatible wrappers shared by every module: Python exceptions become
    `Err` values that propagate with `:-`, exactly as an uncaught `raise` would. */
module Wrappers {

  datatype Option<+T> = None | Some(value: T)

  /** The exception classes the modelled code raises or lets through. */
  datatype Error =
    | NameError(name: string)            // a name used without being imported
    | TypeError(what: string)
    | ValueError(what: string)
    | KeyError(key: string)
    | AttributeError(attr: string)
    | IndexError
    | UnboundLocalError(name: string)
    | ValidationError(field: string)     // pydantic refusing a field value
    | InvalidId(text: string)            // bson refusing an ObjectId string
    | External(what: string)             // raised inside a collaborator (LLM, store, parser)

  datatype Result<+T> = Ok(value: T) | Err(error: Error) {

    predicate IsFailure() {
      Err?
    }

    function PropagateFailure<U>(): Result<U>
      requires Err?
    {
      Err(error)
    }

    function Extract(): T
      requires Ok?
    {
      value
    }
  }

  /** Calling `f` on every element in order, stopping at the first exception
      (a `chain.batch` or list comprehension over an external call). */
  function MapAll<A, B>(xs: seq<A>, f: A -> Result<B>): Result<seq<B>>
    decreases |xs|
  {
    if |xs| == 0 then Ok([])
    else
      match f(xs[0])
      case Err(e) => Err(e)
      case Ok(y) =>
        match MapAll(xs[1..], f)
        case Err(e) => Err(e)
        case Ok(ys) => Ok([y] + ys)
  }

  /** A successful mapping holds one result per element, in order. */
  lemma {:induction false} MapAllOk<A, B>(xs: seq<A>, f: A -> Result<B>)
    requires MapAll(xs, f).Ok?
    ensures |MapAll(xs, f).value| == |xs|
    ensures forall i :: 0 <= i < |xs| ==> f(xs[i]) == Ok(MapAll(xs, f).value[i])
    decreases |xs|
  {
    if |xs| > 0 {
      MapAllOk(xs[1..], f);
      assert forall i :: 1 <= i < |xs| ==> xs[i] == xs[1..][i - 1];
    }
  }

  /** A mapping whose every call succeeds succeeds. */
  lemma {:induction false} MapAllTotal<A, B>(xs: seq<A>, f: A -> Result<B>)
    requires forall i :: 0 <= i < |xs| ==> f(xs[i]).Ok?
    ensures MapAll(xs, f).Ok?
    decreases |xs|
  {
    if |xs| > 0 {
      assert forall i :: 0 <= i < |xs[1..]| ==> xs[1..][i] == xs[i + 1];
      MapAllTotal(xs[1..], f);
    }
  }

  /** Mapping a list with one more element at the end: the elements before it are
      called first, so an earlier failure wins. */
  lemma {:induction false} MapAllSnoc<A, B>(xs: seq<A>, x: A, f: A -> Result<B>)
    ensures MapAll(xs + [x], f)
              == match MapAll(xs, f)
                 case Err(e) => Err(e)
                 case Ok(ys) => (match f(x) case Err(e) => Err(e) case Ok(y) => Ok(ys + [y]))
    decreases |xs|
  {
    if |xs| > 0 {
      assert (xs + [x])[0] == xs[0];
      assert (xs + [x])[1..] == xs[1..] + [x];
      MapAllSnoc(xs[1..], x, f);
      match f(xs[0])
      case Err(e) =>
      case Ok(y) =>
        match MapAll(xs[1..], f)
        case Err(e) =>
        case Ok(ys) =>
          match f(x)
          case Err(e) =>
          case Ok(z) => assert [y] + (ys + [z]) == ([y] + ys) + [z];
    } else {
      assert xs + [x] == [x] && [x][1..] == [];
      match f(x)
      case Err(e) =>
      case Ok(y) => assert [y] + [] == [] + [y];
    }
  }

  /** A failed mapping fails with the error of the first element whose call failed. */
  lemma {:induction false} MapAllFirstError<A, B>(xs: seq<A>, f: A -> Result<B>) returns (i: nat)
    requires MapAll(xs, f).Err?
    ensures i < |xs| && f(xs[i]) == Err(MapAll(xs, f).error)
    ensures forall j :: 0 <= j < i ==> f(xs[j]).Ok?
    decreases |xs|
  {
    if f(xs[0]).Err? {
      i := 0;
    } else {
      var k := MapAllFirstError(xs[1..], f);
      assert forall j :: 1 <= j < k + 1 ==> xs[j] == xs[1..][j - 1];
      i := k + 1;
    }
  }

  /** Once a prefix fails, the whole list fails with the same error. */
  lemma {:induction false} MapAllPrefix<A, B>(xs: seq<A>, f: A -> Result<B>, n: nat)
    requires n <= |xs| && MapAll(xs[..n], f).Err?
    ensures MapAll(xs, f) == MapAll(xs[..n], f)
    decreases n
  {
    assert xs[..n][0] == xs[0];
    assert xs[..n][1..] == xs[1..][..n - 1];
    if f(xs[0]).Ok? {
      MapAllPrefix(xs[1..], f, n - 1);
    }
  }

  /** One step of a loop that maps `f` over `xs`: the element's result extends the prefix's
      results, and its failure is the failure of the whole list. */
  lemma MapAllStep<A, B>(xs: seq<A>, f: A -> Result<B>, i: nat, ys: seq<B>, y: Result<B>)
    requires i < |xs| && MapAll(xs[..i], f) == Ok(ys) && y == f(xs[i])
    ensures y.Ok? ==> MapAll(xs[..i + 1], f) == Ok(ys + [y.value])
    ensures y.Err? ==> MapAll(xs, f) == Err(y.error)
  {
    var prefix := xs[..i];
    assert xs[..i + 1] == prefix + [xs[i]];
    MapAllSnoc(prefix, xs[i], f);
    if y.Err? {
      assert MapAll(xs[..i + 1], f) == Err(y.error);
      MapAllPrefix(xs, f, i + 1);
    } else {
      assert MapAll(xs[..i + 1], f) == Ok(ys + [y.value]);
    }
  }
}
