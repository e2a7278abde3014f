/**
 * The errors that flow through the supervisor. The source builds them with its
 * error library (`ae`) and the standard `errors` and `context` packages; here
 * each way of building one is a constructor, and the two questions the
 * supervisor asks of an error (is it a cancellation? may it be retried?) are
 * predicates over that structure.
 */
module Errors {
  import opened Wrappers

  datatype Error =
    /** `context.Canceled`, as returned by a service that was told to stop. */
    | Canceled
    /** An error produced by the hosted service's own code. */
    | User(msg: string, recoverable: bool)
    /** A plain message error (`ae.Msgf`, `ae.MsgC`). */
    | Message(text: string)
    /** `ae.Wrap(tag, inner)`: a tagged wrapper that unwraps to `inner`. */
    | Wrapped(tag: string, inner: Error)
    /** The error built by the deferred recover: the panic's cause and the error pending when it struck. */
    | Panic(cause: Error, related: Option<Error>)
    /** `ae.New().Fatal().Cause(cause).Msg(msg)`: marked as not recoverable. */
    | Fatal(msg: string, cause: Error)
    /** `ae.WrapMany(msg, errs...)` over a non-empty list. */
    | Many(msg: string, errs: seq<Error>)

  /** The value a Go `panic` was called with: an error, or any other value, known by its `%v` text. */
  datatype PanicValue = PanicError(err: Error) | PanicOther(text: string)

  /** `errors.Is(e, context.Canceled)`: the cancellation error, possibly under wrappers. */
  predicate IsCanceled(e: Error) {
    match e
    case Canceled => true
    case Wrapped(_, inner) => IsCanceled(inner)
    case _ => false
  }

  /**
   * `ae.IsRecoverable(e)`: false for an error marked fatal (also under wrappers)
   * and for a user error that says so; true otherwise.
   */
  predicate IsRecoverable(e: Error) {
    match e
    case Fatal(_, _) => false
    case Wrapped(_, inner) => IsRecoverable(inner)
    case User(_, recoverable) => recoverable
    case _ => true
  }

  /** `ae.WrapMany(msg, errs...)`: no error for an empty list, one aggregate otherwise. */
  function WrapMany(msg: string, errs: seq<Error>): (r: Option<Error>)
    ensures r.None? <==> errs == []
    ensures r.Some? ==> r.value.Many? && r.value.msg == msg && r.value.errs == errs
  {
    if errs == [] then None else Some(Many(msg, errs))
  }

  /** The cause recorded for a recovered panic: the value itself if it is an error, else its text as a message. */
  function PanicCause(v: PanicValue): (r: Error)
    ensures v.PanicError? ==> r == v.err
    ensures v.PanicOther? ==> r == Message(v.text)
  {
    match v
    case PanicError(e) => e
    case PanicOther(text) => Message(text)
  }
}
