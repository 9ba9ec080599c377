/** The async-request controller (src/hooks/useApi.ts): four state cells,
    `data`, `loading`, `error` and `status`, driven by `execute` and `reset`.

    `execute` is split at its `await`: `Execute` is the synchronous part that
    runs before the call is awaited, and `Complete` is what happens when the
    call settles, including the `finally`. A completion carries no identity
    of the call it belongs to, so overlapping calls may complete in any
    order; the pure transition functions below let lemmas speak about such
    sequences. */
module UseApi {
  import opened Wrappers
  import opened Types
  import HttpClient

  datatype ApiState<T> = ApiState(
    data: Option<T>,
    loading: bool,
    error: Option<string>,
    status: LoadingState)

  /** How the awaited `apiCall()` settled, and for a resolved call whether
      the `onSuccess` callback, which runs inside the same `try`, threw. */
  datatype Settlement<T> =
    | Resolved(value: T)
    | ResolvedCallbackThrew(value: T, reason: Thrown)
    | Rejected(reason: Thrown)

  /** Which option callbacks a completion invoked, and with what: when
      `onSuccess` throws, the `catch` goes on to invoke `onError`. */
  datatype Callback<T> =
    | NoCallback
    | SuccessCallback(data: T)
    | ErrorCallback(message: string)
    | SuccessThenErrorCallback(data: T, message: string)

  const UnexpectedErrorMessage: string := "An unexpected error occurred"

  /** The state `useState` starts from. */
  function Initial<T>(): ApiState<T> {
    ApiState(None, false, None, Idle)
  }

  /** The part of `execute` before the `await`. */
  function Begin<T>(s: ApiState<T>): (r: ApiState<T>)
    ensures Valid(r) && r.data == s.data
  {
    s.(loading := true, error := None, status := Loading)
  }

  /** The message shown for a rejection: an `Error`'s own message (an
      `ApiError` is an `Error`), or a fixed fallback for anything else. */
  function ErrorMessage(reason: Thrown): (message: string)
    ensures reason.RaisedApiError? ==> message == reason.apiError.message
    ensures reason.JsError? ==> message == reason.message
    ensures reason.NonError? ==> message == "An unexpected error occurred"
  {
    match reason
    case RaisedApiError(e) => e.message
    case JsError(_, message) => message
    case NonError => UnexpectedErrorMessage
  }

  /** The part of `execute` after the `await`, with its `finally`. A throw
      from `onSuccess` lands in the `catch` after the result was stored, so
      the new data stays next to the error. */
  function Settle<T>(s: ApiState<T>, settlement: Settlement<T>): (r: ApiState<T>)
    ensures Valid(s) ==> Valid(r)
    ensures !r.loading && r.status == (if settlement.Resolved? then Succeeded else Errored)
    ensures settlement.Rejected? ==> r.data == s.data
    ensures !settlement.Rejected? ==> r.data == Some(settlement.value)
  {
    match settlement
    case Resolved(v) => s.(data := Some(v), status := Succeeded, loading := false)
    case ResolvedCallbackThrew(v, reason) =>
      s.(data := Some(v), error := Some(ErrorMessage(reason)), status := Errored, loading := false)
    case Rejected(reason) => s.(error := Some(ErrorMessage(reason)), status := Errored, loading := false)
  }

  /** The callback a completion invokes, given which callbacks were supplied. */
  function CallbackFor<T>(hasOnSuccess: bool, hasOnError: bool, settlement: Settlement<T>): Callback<T> {
    match settlement
    case Resolved(v) => if hasOnSuccess then SuccessCallback(v) else NoCallback
    case ResolvedCallbackThrew(v, reason) =>
      if hasOnError then SuccessThenErrorCallback(v, ErrorMessage(reason)) else SuccessCallback(v)
    case Rejected(reason) => if hasOnError then ErrorCallback(ErrorMessage(reason)) else NoCallback
  }

  /** The invariant every reachable state keeps: `loading` mirrors the
      loading status, an error status always has a message, and an idle or
      loading controller shows none. */
  ghost predicate Valid<T>(s: ApiState<T>) {
    && (s.loading <==> s.status == Loading)
    && (s.status == Errored ==> s.error.Some?)
    && (s.status == Idle || s.status == Loading ==> s.error == None)
  }

  class ApiController<T> {
    var data: Option<T>
    var loading: bool
    var error: Option<string>
    var status: LoadingState
    const immediate: bool
    const hasOnSuccess: bool
    const hasOnError: bool

    function State(): ApiState<T>
      reads this
    {
      ApiState(data, loading, error, status)
    }

    /** Mounting the hook: the initial state, then, when `immediate` is set,
        the first `execute` begins. */
    constructor (immediate: bool, hasOnSuccess: bool, hasOnError: bool)
      ensures this.immediate == immediate
      ensures this.hasOnSuccess == hasOnSuccess && this.hasOnError == hasOnError
      ensures State() == if immediate then Begin(Initial()) else Initial()
      ensures Valid(State())
    {
      this.immediate := immediate;
      this.hasOnSuccess := hasOnSuccess;
      this.hasOnError := hasOnError;
      data, loading, error, status := None, false, None, Idle;
      new;
      if immediate {
        Execute();
      }
    }

    /** `execute()` up to its `await`. */
    method Execute()
      modifies this
      ensures State() == Begin(old(State()))
      ensures loading && error == None && status == Loading && data == old(data)
    {
      loading := true;
      error := None;
      status := Loading;
    }

    /** The settling of an awaited call: the cells it sets and the callbacks
        it invokes. Only a supplied `onSuccess` can throw. */
    method Complete(settlement: Settlement<T>) returns (callback: Callback<T>)
      requires settlement.ResolvedCallbackThrew? ==> hasOnSuccess
      modifies this
      ensures State() == Settle(old(State()), settlement)
      ensures callback == CallbackFor(hasOnSuccess, hasOnError, settlement)
      ensures settlement.Rejected? && hasOnError ==> callback == ErrorCallback(error.value)
      ensures settlement.ResolvedCallbackThrew? && hasOnError ==>
                callback == SuccessThenErrorCallback(settlement.value, error.value)
    {
      match settlement {
        case Resolved(result) =>
          data := Some(result);
          status := Succeeded;
          callback := if hasOnSuccess then SuccessCallback(result) else NoCallback;
        case ResolvedCallbackThrew(result, reason) =>
          data := Some(result);
          var errorMessage := ErrorMessage(reason);
          error := Some(errorMessage);
          status := Errored;
          callback := if hasOnError then SuccessThenErrorCallback(result, errorMessage) else SuccessCallback(result);
        case Rejected(reason) =>
          var errorMessage := ErrorMessage(reason);
          error := Some(errorMessage);
          status := Errored;
          callback := if hasOnError then ErrorCallback(errorMessage) else NoCallback;
      }
      loading := false;
    }

    /** `reset()`: back to the initial state, whatever came before. */
    method Reset()
      modifies this
      ensures State() == Initial()
    {
      data := None;
      loading := false;
      error := None;
      status := Idle;
    }
  }

  /** Beginning a call keeps the last data and clears the error. */
  lemma BeginKeepsData<T>(s: ApiState<T>)
    ensures Begin(s).data == s.data
    ensures Begin(s).loading && Begin(s).error == None && Begin(s).status == Loading
  {
  }

  /** A successful completion stores the result; the error cell is left as
      it was, which after `Begin` is empty. */
  lemma SuccessStoresResult<T>(s: ApiState<T>, v: T)
    ensures Settle(Begin(s), Resolved(v)) == ApiState(Some(v), false, None, Succeeded)
  {
  }

  /** A failed completion shows the message and keeps the previous data. */
  lemma FailureKeepsData<T>(s: ApiState<T>, reason: Thrown)
    ensures Settle(s, Rejected(reason)) ==
            ApiState(s.data, false, Some(ErrorMessage(reason)), Errored)
  {
  }

  /** Every transition keeps the invariant. */
  lemma TransitionsKeepValid<T>(s: ApiState<T>, settlement: Settlement<T>)
    requires Valid(s)
    ensures Valid(Begin(s)) && Valid(Settle(s, settlement)) && Valid(Initial<T>())
  {
  }

  /** Without overlapping calls, an error message is shown exactly when the
      status is an error. */
  lemma SingleCallErrorIffErrored<T>(s: ApiState<T>, settlement: Settlement<T>)
    ensures var r := Settle(Begin(s), settlement);
            r.error.Some? <==> r.status == Errored
  {
  }

  /** A throwing `onSuccess` turns a resolved call into an error that still
      shows the new data; as written, the `catch` fails first and the call
      reads as a plain success. */
  lemma ThrowingOnSuccessShowsErrorWithData<T>(s: ApiState<T>, v: T, reason: Thrown)
    ensures Settle(Begin(s), ResolvedCallbackThrew(v, reason)) ==
            ApiState(Some(v), false, Some(ErrorMessage(reason)), Errored)
    ensures SettleAsWritten(Begin(s), ResolvedCallbackThrew(v, reason)) ==
            Settle(Begin(s), Resolved(v))
  {
  }

  /** Data survives into the loading and error states: a loaded value is
      still there while the next call is in flight and after it fails. */
  lemma DataOutlivesSuccess<T>(v: T, reason: Thrown)
    ensures var loaded := Settle(Begin(Initial<T>()), Resolved(v));
            && Begin(loaded).data == Some(v) && Begin(loaded).status == Loading
            && Settle(Begin(loaded), Rejected(reason)).data == Some(v)
            && Settle(Begin(loaded), Rejected(reason)).status == Errored
  {
  }

  /** Last completion wins: after two overlapping calls, the status is that
      of whichever call completed last, whatever order they began in. */
  lemma LastCompletionWins<T>(s: ApiState<T>, first: Settlement<T>, last: Settlement<T>)
    ensures var r := Settle(Settle(Begin(Begin(s)), first), last);
            && r.status == (if last.Resolved? then Succeeded else Errored)
            && (!last.Rejected? ==> r.data == Some(last.value))
            && !r.loading
  {
  }

  /** With overlapping calls a stale failure's message survives a later
      success: the controller reports success while still showing an
      error. */
  lemma OverlapShowsErrorWithSuccess<T>(s: ApiState<T>, reason: Thrown, v: T)
    ensures var r := Settle(Settle(Begin(Begin(s)), Rejected(reason)), Resolved(v));
            r.status == Succeeded && r.error == Some(ErrorMessage(reason)) && r.data == Some(v)
  {
  }

  /** `reset` does not cancel a call in flight: its completion lands on the
      reset state. */
  lemma CompletionAfterReset<T>(v: T)
    ensures Settle(Initial<T>(), Resolved(v)).status == Succeeded
    ensures Settle(Initial<T>(), Resolved(v)).data == Some(v)
  {
  }

  /** A request that failed in the HTTP client leaves the controller in the
      error state with a non-empty message: the client's own message when it
      raised an `ApiError`, and otherwise, when the body of a text response
      could not be read, the message of the read failure. */
  lemma FailedRequestShowsMessage<T>(
    s: ApiState<T>,
    outcome: HttpClient.FetchOutcome<T>,
    result: Result<HttpClient.Payload<T>, Thrown>)
    requires HttpClient.Settles(outcome, result) && result.Failure?
    ensures var r := Settle(s, Rejected(result.error));
            r.status == Errored && r.error == Some(ErrorMessage(result.error))
    ensures !HttpClient.TextReadFailed(outcome) ==>
              ErrorMessage(result.error) == result.error.apiError.message != ""
    ensures HttpClient.TextReadFailed(outcome) ==>
              ErrorMessage(result.error) == outcome.response.text.error.message
  {
    HttpClient.SettledErrorIsNormalized(outcome, result);
  }

  /** The `catch` block as the source writes it. `err instanceof ApiError`
      names `ApiError`, which is imported with `import type` and declared only
      as an interface; transpiled without type checking, the import is
      erased and the test throws a `ReferenceError` before any cell is set.
      Only the `finally` then runs. */
  function SettleAsWritten<T>(s: ApiState<T>, settlement: Settlement<T>): (r: ApiState<T>)
    ensures settlement.Resolved? ==> r == Settle(s, settlement)
    ensures !settlement.Resolved? ==> r.error == s.error && !r.loading
    ensures settlement.Rejected? ==> r.data == s.data && r.status == s.status
    ensures settlement.ResolvedCallbackThrew? ==>
              r.data == Some(settlement.value) && r.status == Succeeded
  {
    match settlement
    case Resolved(v) => s.(data := Some(v), status := Succeeded, loading := false)
    case ResolvedCallbackThrew(v, _) => s.(data := Some(v), status := Succeeded, loading := false)
    case Rejected(_) => s.(loading := false)
  }

  /** As written, a rejected call leaves the controller reporting `loading`
      status with `loading` false and no error, breaking the invariant the
      corrected `Settle` keeps. */
  lemma AsWrittenRejectionLosesError<T>(reason: Thrown)
    ensures var r := SettleAsWritten(Begin(Initial<T>()), Rejected(reason));
            r.status == Loading && !r.loading && r.error == None && !Valid(r)
    ensures Valid(Settle(Begin(Initial<T>()), Rejected(reason)))
  {
  }
}
