/** The `useFetch` hook (services/useFetch.ts): a `data`/`loading`/`error`
    triple driven by `fetchData`, `reset` and the auto-fetch effect. The
    fetch function is external: its settlement is passed in as an
    `Outcome`. `fetchData` awaits once, so it is modelled as `Begin` (the
    state the component renders while the fetch is in flight) followed by
    `Settle`. */
module FetchHook {
  import opened Text

  /** A JavaScript `Error` object, identified here by its message. */
  datatype Error = Error(message: string)

  /** What a rejected fetch threw: an `Error` instance or any other value. */
  datatype Thrown = ThrownError(error: Error) | ThrownOther

  /** How the awaited fetch function settled. */
  datatype Outcome<T> = Resolved(value: T) | Rejected(thrown: Thrown)

  const FallbackMessage := "An error occurred"

  /** `err instanceof Error ? err : new Error("An error occurred")`. */
  function ErrorOf(thrown: Thrown): (e: Error)
    ensures thrown.ThrownError? ==> e == thrown.error
    ensures thrown.ThrownOther? ==> e.message == FallbackMessage
  {
    match thrown
    case ThrownError(err) => err
    case ThrownOther => Error(FallbackMessage)
  }

  class FetchState<T> {
    var data: Option<T>
    var loading: bool
    var error: Option<Error>

    /** `useState(null)`, `useState(false)`, `useState(null)`. */
    constructor ()
      ensures data == None && !loading && error == None
    {
      data := None;
      loading := false;
      error := None;
    }

    /** The part of `fetchData` before the await: loading on, error cleared,
        data kept. */
    method Begin()
      modifies this
      ensures loading && error == None && data == old(data)
    {
      loading := true;
      error := None;
    }

    /** The part of `fetchData` after the await: the result replaces `data`
        on success; on failure `data` keeps its value and the thrown value
        becomes `error`; `loading` ends false on both paths (the `finally`). */
    method Settle(outcome: Outcome<T>)
      modifies this
      ensures !loading
      ensures outcome.Resolved? ==> data == Some(outcome.value) && error == old(error)
      ensures outcome.Rejected? ==> data == old(data) && error == Some(ErrorOf(outcome.thrown))
    {
      match outcome {
        case Resolved(v) =>
          data := Some(v);
        case Rejected(t) =>
          error := Some(ErrorOf(t));
      }
      loading := false;
    }

    /** `fetchData` run to completion. */
    method FetchData(outcome: Outcome<T>)
      modifies this
      ensures !loading
      ensures data == if outcome.Resolved? then Some(outcome.value) else old(data)
      ensures error == if outcome.Rejected? then Some(ErrorOf(outcome.thrown)) else None
    {
      Begin();
      Settle(outcome);
    }

    /** `reset`: back to the initial triple. */
    method Reset()
      modifies this
      ensures data == None && !loading && error == None
    {
      data := None;
      loading := false;
      error := None;
    }

    /** The effect that runs on mount and whenever `autoFetch` or a dependency
        changes: it fetches only when `autoFetch` is set. */
    method OnDependenciesChanged(autoFetch: bool, outcome: Outcome<T>)
      modifies this
      ensures !autoFetch ==> data == old(data) && loading == old(loading) && error == old(error)
      ensures autoFetch ==> !loading
      ensures autoFetch ==> data == if outcome.Resolved? then Some(outcome.value) else old(data)
      ensures autoFetch ==> error == if outcome.Rejected? then Some(ErrorOf(outcome.thrown)) else None
    {
      if autoFetch {
        FetchData(outcome);
      }
    }
  }

  /** What a screen using the hook sees: after a failed refetch the previous
      data is still shown next to the error, and `reset` clears both. */
  method FailedRefetchKeepsData<T>(first: T, failure: Thrown)
  {
    var s := new FetchState<T>();
    s.FetchData(Resolved(first));
    assert s.data == Some(first) && s.error == None;
    s.FetchData(Rejected(failure));
    assert s.data == Some(first) && s.error == Some(ErrorOf(failure)) && !s.loading;
    s.Reset();
    assert s.data == None && s.error == None;
  }
}
