/**
 * The bounded retry loop at the start of `connect_to`: up to three
 * websocket connection attempts, each ending in an open stream, a connect
 * error or a timeout, with a pause between attempts.
 */
module ConnectRetry {
  import opened Wrappers

  /** `CONNECT_MAX_ATTEMPTS` */
  const MaxAttempts: nat := 3

  /** The error recorded for an attempt that timed out (`timeout_msg`). */
  const TimeoutMessage := "Connection timed out. Check that both Macs are on the same network and the other device is sharing."

  /** `format!("Failed after {} attempts. ", CONNECT_MAX_ATTEMPTS)` */
  const FailurePrefix := "Failed after 3 attempts. "

  /** How one attempt ended: the stream opened, `connect_async` failed, or the timeout elapsed first. */
  datatype Attempt = Opened | Refused(error: string) | TimedOut

  /** The `last_error` a failed attempt leaves behind. */
  function AttemptError(a: Attempt): string
    requires !a.Opened?
  {
    if a.TimedOut? then TimeoutMessage else a.error
  }

  /** Whether one of the attempts the loop may make opens a stream. */
  ghost predicate AnyOpened(outcomes: seq<Attempt>)
    requires |outcomes| >= MaxAttempts
  {
    exists k :: 0 <= k < MaxAttempts && outcomes[k].Opened?
  }

  /** The number of attempts made by a run that ended in `r` (the attempt number on success). */
  function AttemptsMade(r: Result<nat, string>): nat {
    if r.Success? then r.value else MaxAttempts
  }

  /**
   * The retry loop, given the outcome each attempt would have. On success
   * the result is the number of the attempt that opened the stream;
   * `pauses` lists the attempts after which the loop slept.
   */
  method ConnectWithRetry(outcomes: seq<Attempt>) returns (r: Result<nat, string>, pauses: seq<nat>)
    requires |outcomes| >= MaxAttempts
    ensures r.Success? <==> AnyOpened(outcomes)
    ensures r.Success? ==> 1 <= r.value <= MaxAttempts && outcomes[r.value - 1].Opened?
    ensures r.Success? ==> forall j :: 0 <= j < r.value - 1 ==> !outcomes[j].Opened?
    ensures r.Failure? ==> r.error == FailurePrefix + AttemptError(outcomes[MaxAttempts - 1])
    ensures pauses == seq(AttemptsMade(r) - 1, i => i + 1)
  {
    var lastError := "";
    var stream: Option<nat> := None;
    pauses := [];
    for attempt := 1 to MaxAttempts + 1
      invariant stream.None?
      invariant forall j :: 0 <= j < attempt - 1 ==> !outcomes[j].Opened?
      invariant attempt > 1 ==> lastError == AttemptError(outcomes[attempt - 2])
      invariant pauses == seq(if attempt - 1 < MaxAttempts then attempt - 1 else MaxAttempts - 1, i => i + 1)
    {
      match outcomes[attempt - 1] {
        case Opened =>
          stream := Some(attempt);
          break;
        case Refused(e) =>
          lastError := e;
        case TimedOut =>
          lastError := TimeoutMessage;
      }
      if attempt < MaxAttempts {
        pauses := pauses + [attempt];
      }
    }
    match stream {
      case Some(n) => r := Success(n);
      case None => r := Failure(FailurePrefix + lastError);
    }
  }
}
