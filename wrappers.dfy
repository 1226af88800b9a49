/** Optional values and results, shared by every module of the model. */
module Wrappers {

  datatype Option<+T> = None | Some(value: T)
  {
    predicate IsFailure() { None? }

    function PropagateFailure<U>(): Option<U>
      requires None?
    {
      None
    }

    function Extract(): T
      requires Some?
    {
      value
    }
  }

  /** A Python exception, reduced to its class and message. */
  datatype PyError =
    | ValueError(msg: string)
    | ZeroDivisionError(msg: string)
    | TypeError(msg: string)
    | KeyError(msg: string)
    | IndexError(msg: string)
    | AttributeError(msg: string)
    | NotImplementedError(msg: string)
  {
    /** What `str(e)` prints for the exception. */
    function Message(): string
    {
      match this
      case ValueError(m) => m
      case ZeroDivisionError(m) => m
      case TypeError(m) => m
      case KeyError(m) => m
      case IndexError(m) => m
      case AttributeError(m) => m
      case NotImplementedError(m) => m
    }
  }

  /** The `ValueError` that `int(s)` raises for a text that is not a number. */
  function InvalidIntLiteral(s: string): PyError
  {
    ValueError("invalid literal for int() with base 10: '" + s + "'")
  }

  datatype Result<+T, +E> = Ok(value: T) | Err(error: E)
  {
    predicate IsFailure() { Err? }

    function PropagateFailure<U>(): Result<U, E>
      requires Err?
    {
      Err(error)
    }

    function Extract(): T
      requires Ok?
    {
      value
    }
  }

  /** Turns a missing value into the given error. */
  function Need<T, E>(o: Option<T>, e: E): (r: Result<T, E>)
    ensures r.Ok? <==> o.Some?
    ensures o.Some? ==> r.value == o.value
    ensures o.None? ==> r.error == e
  {
    match o
    case Some(v) => Ok(v)
    case None => Err(e)
  }

  /**
   * Adding the values of a list of results to a set in order: the first
   * error stops it, a `None` adds nothing.
   */
  function GatherSet<T(==), E>(parsed: seq<Result<Option<T>, E>>): Result<set<T>, E>
  {
    if |parsed| == 0 then Ok({})
    else
      var acc :- GatherSet(parsed[..|parsed| - 1]);
      var item :- parsed[|parsed| - 1];
      Ok(if item.Some? then acc + {item.value} else acc)
  }

  lemma GatherSetSnoc<T, E>(parsed: seq<Result<Option<T>, E>>, n: nat)
    requires n < |parsed|
    ensures GatherSet(parsed[..n + 1]) ==
              match GatherSet(parsed[..n])
              case Err(e) => Err(e)
              case Ok(acc) =>
                match parsed[n]
                case Err(e) => Err(e)
                case Ok(item) => Ok(if item.Some? then acc + {item.value} else acc)
  {
    assert parsed[..n + 1][..n] == parsed[..n];
  }

  /** Once the prefix has failed, the later results do not change the outcome. */
  lemma {:induction false} GatherSetErrSticks<T, E>(parsed: seq<Result<Option<T>, E>>, n: nat)
    requires n <= |parsed| && GatherSet(parsed[..n]).Err?
    ensures GatherSet(parsed) == GatherSet(parsed[..n])
    decreases |parsed| - n
  {
    if n < |parsed| {
      GatherSetSnoc(parsed, n);
      GatherSetErrSticks(parsed, n + 1);
    } else {
      assert parsed[..n] == parsed;
    }
  }

  /**
   * The gathering fails exactly when some result is an error; otherwise the
   * set holds exactly the values of the `Some` results.
   */
  lemma {:induction false} GatherSetSpec<T, E>(parsed: seq<Result<Option<T>, E>>)
    ensures GatherSet(parsed).Err? <==> exists j :: 0 <= j < |parsed| && parsed[j].Err?
    ensures GatherSet(parsed).Ok? ==>
              forall x :: x in GatherSet(parsed).value <==> exists j :: 0 <= j < |parsed| && parsed[j] == Ok(Some(x))
  {
    if |parsed| > 0 {
      var n := |parsed| - 1;
      var init := parsed[..n];
      GatherSetSpec(init);
      GatherSetSnoc(parsed, n);
      assert parsed[..n + 1] == parsed;
      assert forall j :: 0 <= j < n ==> init[j] == parsed[j];
      if GatherSet(parsed).Ok? {
        forall x ensures x in GatherSet(parsed).value <==> exists j :: 0 <= j < |parsed| && parsed[j] == Ok(Some(x)) {
          if exists j :: 0 <= j < |parsed| && parsed[j] == Ok(Some(x)) {
            var j :| 0 <= j < |parsed| && parsed[j] == Ok(Some(x));
            if j < n {
              assert init[j] == Ok(Some(x));
            }
          }
        }
      }
    }
  }
}
