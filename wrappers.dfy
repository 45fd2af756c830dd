/** Option and Result, and the Python exception kinds the modelled code raises. */
module Wrappers {

  datatype Option<+T> = None | Some(value: T)

  /** The Python exceptions that can escape the modelled functions. */
  datatype Exception =
    | AssertionError
    | KeyError
    | IndexError
    | TypeError
    | ValueError
    | AttributeError
    | FileNotFoundError // `open` of a missing file
    | ZeroDivisionError
    | NotFound          // Django's Http404 from get_object_or_404
    | ValidationError   // rest_framework's ValidationError
    | SynthesisError    // case_synthesizer.exceptions.SynthesisError
    | RequestException  // a failed HTTP request other than a read timeout

  /** The outcome of a call that either returns a value or raises. */
  datatype Result<+T> = Ok(value: T) | Err(error: Exception) {
    predicate IsFailure() { Err? }

    function PropagateFailure<U>(): Result<U>
      requires Err?
    {
      Err(error)
    }

    function Extract(): T
      requires Ok?
    {
      value
    }
  }

  /**
   * A Python call binding positional arguments to the parameters a function
   * declares after `self`: each argument goes to the parameter in its
   * position, and a call with more or fewer arguments than parameters raises
   * TypeError before the function body runs.
   */
  function BindPositional<A>(params: seq<string>, args: seq<A>): (r: Result<seq<(string, A)>>)
    ensures r.Ok? <==> |args| == |params|
    ensures r.Err? ==> r.error == TypeError
    ensures r.Ok? ==> |r.value| == |params| && forall i :: 0 <= i < |params| ==> r.value[i] == (params[i], args[i])
  {
    if |args| != |params| then Err(TypeError)
    else Ok(seq(|params|, i requires 0 <= i < |params| => (params[i], args[i])))
  }
}
