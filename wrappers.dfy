/** Option and Result values shared by every module of the model. */
module Wrappers {

  datatype Option<+T> = None | Some(value: T) {
    function GetOr(default: T): T {
      match this
      case Some(v) => v
      case None => default
    }
  }

  /** The kinds of Python exception the modelled code raises or lets escape. */
  datatype ErrorKind =
    | NotFound        // FileNotFoundError
    | Runtime         // RuntimeError
    | IndexError
    | KeyError
    | TypeError
    | ValueError      // includes json.JSONDecodeError, a subclass of ValueError
    | AttributeError
    | Skipped         // CaptureSkipped
    | Other           // anything raised by a collaborator outside the model

  /** An exception: its class and the text that `str(exc)` gives. */
  datatype Failure = Failure(kind: ErrorKind, message: string)

  datatype Result<+R> = Ok(value: R) | Err(error: Failure) {
    predicate IsFailure() { Err? }
    function PropagateFailure<U>(): Result<U>
      requires Err?
    {
      Err(error)
    }
    function Extract(): R
      requires Ok?
    {
      value
    }
  }

  /** `[f(x) for x in xs]` where `f` may raise: the first failure, in order, ends the list. */
  function MapAll<A, B>(f: A -> Result<B>, xs: seq<A>): (r: Result<seq<B>>)
    ensures r.Ok? <==> forall i :: 0 <= i < |xs| ==> f(xs[i]).Ok?
    ensures r.Ok? ==> |r.value| == |xs| && forall i :: 0 <= i < |xs| ==> f(xs[i]) == Ok(r.value[i])
  {
    if |xs| == 0 then Ok([])
    else
      match f(xs[0])
      case Err(e) => Err(e)
      case Ok(y) =>
        match MapAll(f, xs[1..])
        case Err(e) => Err(e)
        case Ok(ys) => Ok([y] + ys)
  }

  /** The list comprehension succeeds with `ys` when every element does. */
  lemma {:induction false} MapAllOk<A, B>(f: A -> Result<B>, xs: seq<A>, ys: seq<B>)
    requires |xs| == |ys| && forall i :: 0 <= i < |xs| ==> f(xs[i]) == Ok(ys[i])
    ensures MapAll(f, xs) == Ok(ys)
  {
    if |xs| > 0 {
      MapAllOk(f, xs[1..], ys[1..]);
      assert [ys[0]] + ys[1..] == ys;
    }
  }

  /** The list comprehension fails when some element fails. */
  lemma {:induction false} MapAllErr<A, B>(f: A -> Result<B>, xs: seq<A>, k: nat)
    requires k < |xs| && f(xs[k]).Err?
    ensures MapAll(f, xs).Err?
  {
    if k > 0 && f(xs[0]).Ok? {
      MapAllErr(f, xs[1..], k - 1);
    }
  }
}
