/** The generic load-lifecycle hook `useApi` of src/hooks/useApi.ts. The state is
    `{ data, loading, error }`; `execute` sets `loading` and clears `error`, awaits the API
    function, applies its outcome and clears `loading`; `reset` returns to the initial state.
    The API function is a parameter: a total function from the variables it is given to what
    the awaited call does. Each `execute` is one atomic step; `Begin` and `Settle` are its two
    halves, split at the await, so that what overlapping calls do can be stated too. */
module UseApi {
  import opened Types
  import opened Api

  /** `UseApiOptions`: `None` is an option left undefined. */
  datatype Options<V> = Options(immediate: Option<bool>, variables: Option<V>)

  datatype LoadState<T> = LoadState(data: Option<T>, loading: bool, error: Option<ApiError>)

  /** What `execute` reports and stores when the API function throws. */
  const UnexpectedError: ApiError := ApiError("Unexpected error occurred", 500)

  function Idle<T>(): LoadState<T> {
    LoadState(None, false, None)
  }

  /** No stale data next to a reported error. */
  predicate Exclusive<T>(s: LoadState<T>) {
    !(s.data.Some? && s.error.Some?)
  }

  /** The variables handed to the API function: those given to `execute`, else the option's. */
  function VariablesToUse<V>(executeVariables: Option<V>, variables: Option<V>): Option<V> {
    if executeVariables.Some? then executeVariables else variables
  }

  /** What `execute` returns. After a normal call it is the API function's own `Result`. After a
      throw it is a hand-built object cast to `Result`. That object answers `isOk()` (false) and
      `.error`, and has none of the other `Result` methods. */
  datatype ExecuteReturn<T> = ApiResult(result: Result<T>) | ErrorStub(error: ApiError)

  /** `isOk()` on what `execute` returns. */
  predicate IsOk<T>(r: ExecuteReturn<T>) {
    r.ApiResult? && r.result.Ok?
  }

  /** `.error` on what `execute` returns, when it is not ok. */
  function ErrorOf<T>(r: ExecuteReturn<T>): ApiError
    requires !IsOk(r)
  {
    match r
    case ApiResult(result) => result.error
    case ErrorStub(error) => error
  }

  /** The value `execute` returns: the API function's own result, or the error stub carrying
      the unexpected error when it threw. */
  function ResultOf<T>(outcome: Outcome<T>): (r: ExecuteReturn<T>)
    ensures outcome.Returned? ==> r == ApiResult(outcome.result)
    ensures outcome.Threw? ==> r == ErrorStub(UnexpectedError) && !IsOk(r) && ErrorOf(r) == UnexpectedError
  {
    match outcome
    case Returned(result) => ApiResult(result)
    case Threw => ErrorStub(UnexpectedError)
  }

  /** The state while the call is awaited. */
  function Begin<T>(s: LoadState<T>): LoadState<T> {
    s.(loading := true, error := None)
  }

  /** The state once the awaited call has settled. A success writes `data` and leaves `error`
      as it was; a failure, or a throw, writes the error and clears `data`. */
  function Settle<T>(s: LoadState<T>, outcome: Outcome<T>): LoadState<T> {
    match outcome
    case Returned(Ok(v)) => s.(data := Some(v), loading := false)
    case Returned(Err(e)) => s.(error := Some(e), data := None, loading := false)
    case Threw => s.(error := Some(UnexpectedError), data := None, loading := false)
  }

  /** A completed `execute` leaves `loading` false, and the state agrees with what `execute`
      returns: `isOk()` exactly when data is held, the value and no error then, otherwise the
      returned `.error` and no data. Nothing of the earlier state survives. */
  lemma ExecuteReflectsResult<T>(s: LoadState<T>, outcome: Outcome<T>)
    ensures var t := Settle(Begin(s), outcome);
      var r := ResultOf(outcome);
      && !t.loading
      && Exclusive(t)
      && (IsOk(r) <==> t.data.Some?)
      && (IsOk(r) ==> t.data == Some(r.result.value) && t.error.None?)
      && (!IsOk(r) ==> t.data.None? && t.error == Some(ErrorOf(r)))
  {
  }

  /** Overlapping calls: both begin, the first settles with an error, the second with a
      value. The value lands in `data`, but the second call never clears `error`, so the
      earlier error stays beside it. */
  lemma OverlapKeepsStaleError<T>(s: LoadState<T>, e: ApiError, v: T)
    ensures var t := Settle(Settle(Begin(Begin(s)), Returned(Err(e))), Returned(Ok(v)));
      t.data == Some(v) && t.error == Some(e) && !Exclusive(t)
  {
  }

  class ApiHook<T, V> {
    const immediate: bool
    const variables: Option<V>
    var data: Option<T>
    var loading: bool
    var error: Option<ApiError>

    function State(): LoadState<T>
      reads this
    {
      LoadState(data, loading, error)
    }

    /** The hook on its first render: `immediate` defaults to true, all state empty. */
    constructor (options: Options<V>)
      ensures immediate == options.immediate.GetOr(true) && variables == options.variables
      ensures State() == Idle()
    {
      immediate := options.immediate.GetOr(true);
      variables := options.variables;
      data, loading, error := None, false, None;
    }

    /** `execute(executeVariables)`: calls the API function with the variables to use and
        returns exactly what it returned (the error stub if it threw). */
    method Execute(executeVariables: Option<V>, apiFn: Option<V> -> Outcome<T>) returns (r: ExecuteReturn<T>)
      modifies this
      ensures r == ResultOf(apiFn(VariablesToUse(executeVariables, variables)))
      ensures State() == Settle(Begin(old(State())), apiFn(VariablesToUse(executeVariables, variables)))
      ensures !loading && Exclusive(State())
    {
      loading := true;
      error := None;
      var varsToUse := if executeVariables.Some? then executeVariables else variables;
      var outcome := apiFn(varsToUse);
      match outcome {
        case Returned(result) =>
          if result.Ok? {
            data := Some(result.value);
          } else {
            error := Some(result.error);
            data := None;
          }
          loading := false;
          r := ApiResult(result);
        case Threw =>
          error := Some(UnexpectedError);
          data := None;
          loading := false;
          r := ErrorStub(UnexpectedError);
      }
    }

    /** The mount / dependency-change effect: runs `execute()` with no variables exactly when
        `immediate` holds. */
    method OnDependenciesChanged(apiFn: Option<V> -> Outcome<T>) returns (r: Option<ExecuteReturn<T>>)
      modifies this
      ensures immediate ==> r == Some(ResultOf(apiFn(variables)))
      ensures immediate ==> State() == Settle(Begin(old(State())), apiFn(variables))
      ensures !immediate ==> r.None? && State() == old(State())
    {
      if immediate {
        var result := Execute(None, apiFn);
        r := Some(result);
      } else {
        r := None;
      }
    }

    /** `reset()`: back to the initial state, from any state (so twice is the same as once). */
    method Reset()
      modifies this
      ensures State() == Idle()
    {
      data := None;
      error := None;
      loading := false;
    }
  }
}
