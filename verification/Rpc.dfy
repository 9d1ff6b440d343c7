/** The wire-level values the gateway passes around: workers, requests, errors and
    the result of one attempt (one RPC to one worker). */
module Rpc {

  datatype Option<+T> = None | Some(value: T)

  datatype Result<+T> = Success(value: T) | Failure(error: Error)

  /** A worker as the gateway sees it, told apart by its id alone. */
  datatype Worker = Worker(id: string, address: string)

  datatype Request = Request(id: string, prompt: string)

  datatype Response = Response(text: string)

  datatype Code =
    | OK | Canceled | Unknown | InvalidArgument | DeadlineExceeded | NotFound
    | AlreadyExists | PermissionDenied | ResourceExhausted | FailedPrecondition
    | Aborted | OutOfRange | Unimplemented | Internal | Unavailable | DataLoss
    | Unauthenticated

  /** Go errors: a gRPC status, an error carrying no status, and the status that
      `attemptFailed` builds from the dispatch count and the last transport error. */
  datatype Error =
    | Status(code: Code, message: string)
    | Plain(message: string)
    | ExhaustedAttempts(dispatched: int, last: Error)

  /** What `status.Code` answers; an error without a status reads as Unknown. */
  function CodeOf(e: Error): Code {
    match e
    case Status(code, _) => code
    case Plain(_) => Unknown
    case ExhaustedAttempts(_, _) => Unavailable
  }

  /** Is the error about the machine rather than about the request? */
  predicate Retryable(e: Error) {
    CodeOf(e) in {Unavailable, DeadlineExceeded}
  }

  /** What one dispatch returns. */
  datatype Outcome = Ok(resp: Response) | Err(err: Error)

  /** What one attempt offers to the client; exactly one of response and error is set. */
  datatype AttemptResult =
    | Answer(resp: Response, workerID: string)
    | Fault(err: Error, workerID: string)

  /** The workers of `ws` whose id is not in `ids`, in order. Both `healthyExcept` and
      the tried-filter of `attemptFailed` compute this. */
  function Without(ws: seq<Worker>, ids: set<string>): (out: seq<Worker>)
    ensures forall w :: w in out <==> w in ws && w.id !in ids
  {
    if ws == [] then []
    else
      var last := ws[|ws| - 1];
      assert ws == ws[..|ws| - 1] + [last];
      Without(ws[..|ws| - 1], ids) + if last.id in ids then [] else [last]
  }

  function IdsOf(ws: seq<Worker>): set<string> {
    set w | w in ws :: w.id
  }

  lemma IdsWithout(ws: seq<Worker>, ids: set<string>)
    ensures IdsOf(Without(ws, ids)) == IdsOf(ws) - ids
  {
  }
}
