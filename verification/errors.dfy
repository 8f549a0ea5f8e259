/**
 * Error classification for retry behaviour (internal/cloud/evroc/errors.go).
 *
 * A Go `error` is modelled as `Option<Error>`: `None` is nil. An `Error` carries
 * what the Kubernetes API-error helpers (and the `net.Error` type assertion)
 * would recognise in it, as a `kind`, and its `Error()` text, as `msg`.
 */
module Errors {
  import opened Text

  datatype Option<+T> = None | Some(value: T)

  datatype ErrKind =
    | Network             // implements net.Error
    | ServiceUnavailable
    | Timeout
    | ServerTimeout
    | TooManyRequests
    | Invalid
    | BadRequest
    | Forbidden
    | Unauthorized
    | NotFound
    | Conflict
    | Generic             // anything else, e.g. errors.New("...")

  datatype Error = Error(kind: ErrKind, msg: string)

  /** A value or the error that prevented it. */
  datatype Result<+T> = Ok(value: T) | Err(error: Error)

  /** controller-runtime's `ctrl.Result`; every result in this code base leaves
      `Requeue` false, so only the requeue delay (in seconds) is kept. */
  datatype CtrlResult = CtrlResult(requeueAfter: nat)

  /** What a reconcile step hands back to controller-runtime. */
  datatype Outcome = Outcome(result: CtrlResult, err: Option<Error>)

  /** `ctrl.Result{}`: no explicit requeue. */
  const EmptyResult := CtrlResult(0)

  /** Delay for transient errors, in seconds. */
  const TransientRetryDelay: nat := 30

  /** Delay while waiting for bootstrap data, an address or infrastructure, in seconds. */
  const BootstrapDataRetryDelay: nat := 5

  /** Message fragments that mark an error as transient. */
  const TransientMarkers: seq<string> :=
    ["timeout", "connection refused", "connection reset",
     "rate limit", "too many requests", "temporarily unavailable"]

  /** API-error kinds that are transient by status reason (plus the network kind). */
  predicate TransientKind(k: ErrKind) {
    k in {Network, ServiceUnavailable, Timeout, ServerTimeout, TooManyRequests}
  }

  /** API-error kinds that are terminal by status reason. */
  predicate TerminalKind(k: ErrKind) {
    k in {Invalid, BadRequest, Forbidden, Unauthorized, NotFound, Conflict}
  }

  /** `fmt.Errorf("<context>: %w", e)`. The API-error helpers look through the
      wrapper, so the status kind survives; the `net.Error` type assertion does
      not, so a wrapped network error is no longer recognised as one. */
  function Wrap(e: Error, context: string): Error {
    Error(if e.kind == Network then Generic else e.kind, context + ": " + e.msg)
  }

  /** An error worth retrying after a fixed delay. */
  function IsTransientError(err: Option<Error>): (r: bool)
    ensures r <==> err.Some? &&
                   (TransientKind(err.value.kind) ||
                    exists m :: m in TransientMarkers && Mentions(err.value.msg, m))
  {
    match err
    case None => false
    case Some(e) =>
      ContainsAllMarkers(e.msg);
      if e.kind == Network then true
      else if Contains(e.msg, "timeout") then true
      else if Contains(e.msg, "connection refused") || Contains(e.msg, "connection reset") then true
      else if Contains(e.msg, "rate limit") || Contains(e.msg, "too many requests") then true
      else if e.kind == ServiceUnavailable || e.kind == Timeout
              || e.kind == ServerTimeout || e.kind == TooManyRequests then true
      else if Contains(e.msg, "temporarily unavailable") then true
      else false
  }

  /** The search agrees with the reference definition on every marker. */
  lemma ContainsAllMarkers(msg: string)
    ensures forall m :: m in TransientMarkers ==> (Contains(msg, m) <==> Mentions(msg, m))
  {
    forall m | m in TransientMarkers
      ensures Contains(msg, m) <==> Mentions(msg, m)
    {
      ContainsIffMentions(msg, m);
    }
  }

  /** An error that will not go away by retrying. */
  function IsTerminalError(err: Option<Error>): (r: bool)
    ensures r <==> err.Some? && TerminalKind(err.value.kind)
    ensures err.Some? && err.value.kind == Generic ==> !r
  {
    match err
    case None => false
    case Some(e) =>
      if e.kind == Invalid || e.kind == BadRequest then true
      else if e.kind == Forbidden || e.kind == Unauthorized then true
      else if e.kind == NotFound then true
      else if e.kind == Conflict then true
      else false
  }

  /** `apierrors.IsNotFound`. */
  function IsNotFoundError(err: Option<Error>): (r: bool)
    ensures r <==> exists m :: err == Some(Error(NotFound, m))
    ensures r ==> IsTerminalError(err)
  {
    err.Some? && err.value.kind == NotFound
  }

  /** Classify an error into a retry decision. */
  function HandleError(err: Option<Error>, errMsg: string): (r: Outcome)
    ensures err.None? ==> r == Outcome(EmptyResult, None)
    ensures IsTransientError(err) ==> r == Outcome(CtrlResult(TransientRetryDelay), None)
    ensures err.Some? && !IsTransientError(err) ==>
              r.result == EmptyResult && r.err.Some? &&
              r.err.value.msg == errMsg + ": " + err.value.msg
    ensures r.err.Some? <==> err.Some? && !IsTransientError(err)
  {
    if err.None? then Outcome(EmptyResult, None)
    else if IsTransientError(err) then Outcome(CtrlResult(TransientRetryDelay), None)
    else if IsTerminalError(err) then Outcome(EmptyResult, Some(Wrap(err.value, errMsg)))
    else Outcome(EmptyResult, Some(Wrap(err.value, errMsg)))
  }

  /** The transient check runs first: a NotFound whose text mentions a timeout is
      terminal by kind, yet handled as a 30-second requeue without error. */
  lemma TransientWinsOverTerminal()
    ensures var e := Some(Error(NotFound, "i/o timeout"));
            IsTerminalError(e) && IsTransientError(e) &&
            HandleError(e, "reconcile") == Outcome(CtrlResult(30), None)
  {
    var e := Error(NotFound, "i/o timeout");
    assert OccursAt(e.msg, "timeout", 4);
    assert Mentions(e.msg, TransientMarkers[0]);
  }

  /** Every marker message is transient whatever its kind. */
  lemma MarkersAreTransient(k: ErrKind, msg: string, m: string)
    requires m in TransientMarkers && Contains(msg, m)
    ensures IsTransientError(Some(Error(k, msg)))
    ensures HandleError(Some(Error(k, msg)), "x").err.None?
  {
    ContainsIffMentions(msg, m);
  }
}
