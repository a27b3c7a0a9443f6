/**
 * What the client emits on a request's or a subscription's emitter, and the
 * `onmessage` dispatch of a streamed frame.
 *
 * The two revisions of the client differ in the name of the value event:
 * src/Client.ts emits `result`, src/Client.js emits `data`.
 */
module Signals {
  import opened Json
  import opened Normaliser

  /** src/Client.ts (with src/Response.ts) or src/Client.js (with src/Response.js). */
  datatype Revision = Current | Legacy

  /** Why a call failed: an error reported by the server, or a failed fetch or JSON parse. */
  datatype Failure = Protocol(info: ErrorInfo) | Transport(reason: string)

  /** One emission on a per-call emitter, in the order listeners see them. */
  datatype Signal =
    | ResponseSignal(env: Envelope)
    | Success
    | Result(value: Option<map<string, Value>>)
    | Data(value: Option<map<string, Value>>)
    | Error(failure: Failure)

  /** The value event of a revision: `result` or `data`. */
  function ValueSignal(rev: Revision, v: Option<map<string, Value>>): (s: Signal)
    ensures s.Result? <==> rev.Current?
    ensures s.Result? || s.Data?
    ensures s.value == v
  {
    if rev.Current? then Result(v) else Data(v)
  }

  /**
   * `ws.onmessage` for a frame whose key is registered: `response` first,
   * then exactly one of `success` (no field map), the value event (the
   * field values), or `error` (a top-level or field error).
   */
  function Dispatch(rev: Revision, env: Envelope): (s: seq<Signal>)
    ensures |s| == 2 && s[0] == ResponseSignal(env)
    ensures s[1] == Success <==> env.error.None? && env.fields.None?
    ensures env.error.Some? ==> s[1] == Error(Protocol(env.error.value))
    ensures s[1].Error? <==> Normalise(env).Err?
    ensures s[1].Error? ==> s[1].failure.Protocol?
    ensures !s[1].Error? && !s[1].Success? ==> s[1] == ValueSignal(rev, Some(Normalise(env).values))
  {
    match Normalise(env)
    case Err(info) => [ResponseSignal(env), Error(Protocol(info))]
    case NoData => [ResponseSignal(env), Success]
    case Values(values) => [ResponseSignal(env), ValueSignal(rev, Some(values))]
  }

  /**
   * With no top-level error, the first field in iteration order that
   * carries an error is the one a subscription's `error` listener sees.
   */
  lemma DispatchFirstFieldError(rev: Revision, env: Envelope, i: nat)
    requires env.error.None? && env.fields.Some?
    requires i < |env.fields.value| && env.fields.value[i].1.error.Some?
    requires NoErrorBefore(env.fields.value, i)
    ensures Dispatch(rev, env)[1] == Error(Protocol(env.fields.value[i].1.error.value))
  {
    FirstFieldErrorWins(env, i);
  }

  /**
   * With no error anywhere and a field map present, the value event carries
   * every field name of the frame.
   */
  lemma DispatchValues(rev: Revision, env: Envelope)
    requires env.error.None? && env.fields.Some?
    requires NoErrorBefore(env.fields.value, |env.fields.value|)
    ensures Normalise(env).Values?
    ensures Dispatch(rev, env)[1] == ValueSignal(rev, Some(Normalise(env).values))
    ensures Normalise(env).values.Keys == NameSet(env.fields.value)
  {
    NoErrorGivesValues(env);
  }
}
