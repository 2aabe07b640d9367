/** Option and Result values shared by the whole model, and the failure kinds
    a derive can end with: a panic inside the macro, a compile error it
    reports (`syn::Error`), or an attribute string that does not tokenize. */
module Wrappers {

  datatype Option<T> = None | Some(value: T) {
    /** `Option::unwrap_or` */
    function GetOr(default: T): T {
      match this
      case Some(v) => v
      case None => default
    }
  }

  datatype Failure =
    | Panic(message: string)
    | CompileError(message: string)
    | TokenizeError(text: string)

  datatype Result<T> = Ok(value: T) | Err(failure: Failure)

  /** The message Rust prints when `Option::unwrap` meets `None`. */
  const UnwrapNone: string := "called `Option::unwrap()` on a `None` value"

  /** `iter().map(..).collect::<Result<Vec<_>>>()`: the first failure in
      order, or every value in order. */
  function Collect<T>(rs: seq<Result<T>>): (r: Result<seq<T>>)
    ensures r.Ok? <==> forall i | 0 <= i < |rs| :: rs[i].Ok?
    ensures r.Ok? ==> |r.value| == |rs| && forall i | 0 <= i < |rs| :: r.value[i] == rs[i].value
    ensures r.Err? ==> exists k | 0 <= k < |rs| :: rs[k] == Err(r.failure) && forall j | 0 <= j < k :: rs[j].Ok?
  {
    if rs == [] then Ok([])
    else
      match rs[0]
      case Err(e) => Err(e)
      case Ok(v) =>
        match Collect(rs[1..])
        case Err(e) => Err(e)
        case Ok(vs) => Ok([v] + vs)
  }
}
