/**
 * The crate's error type `HassError` and its conversions from transport
 * and JSON errors (src/errors.rs).
 */
module Errors {
  import opened Wrappers
  import opened Protocol

  /** `HassError`, without the `RecvError` variant of the async-std build. */
  datatype HassError =
    | AuthenticationFailed(message: string)
    | UnableToDeserialize(cause: SerdeError)
    | ConnectionClosed
    | SendError(reason: string)
    | TungsteniteError(wsError: WsError)
    | UnknownPayloadReceived
    | ReponseError(result: WSResult)
    | Generic(detail: string)

  type HassResult<T> = Wrappers.Result<T, HassError>

  /** Conversion of an owned transport error (`From<tungstenite::Error>`). */
  function FromOwned(e: WsError): (r: HassError)
    ensures r == HassError.ConnectionClosed <==> e == WsError.ConnectionClosed
    ensures r != HassError.ConnectionClosed ==> r == TungsteniteError(e)
  {
    match e
    case ConnectionClosed => HassError.ConnectionClosed
    case _ => TungsteniteError(e)
  }

  /**
   * Conversion of a borrowed transport error (`From<&tungstenite::Error>`):
   * the two close variants are wrapped as transport errors, everything else
   * becomes a generic error quoting the transport error's text.
   */
  function FromBorrowed(e: WsError): (r: HassError)
    ensures r != HassError.ConnectionClosed
    ensures r.Generic? <==> e.Other?
    ensures e.Other? ==> r.detail == "Error from ws " + e.description
    ensures !e.Other? ==> r == TungsteniteError(e)
  {
    match e
    case ConnectionClosed => TungsteniteError(WsError.ConnectionClosed)
    case AlreadyClosed => TungsteniteError(WsError.AlreadyClosed)
    case Other(_) => Generic("Error from ws " + Describe(e))
  }

  /** Conversion of a JSON error (`From<serde_json::Error>`). */
  function FromSerde(e: SerdeError): (r: HassError)
    ensures r.UnableToDeserialize? && r.cause == e
  {
    UnableToDeserialize(e)
  }

  /** The two transport conversions agree on exactly one input: `AlreadyClosed`. */
  lemma OwnedAndBorrowedAgreeOnlyOnAlreadyClosed(e: WsError)
    ensures FromOwned(e) == FromBorrowed(e) <==> e == WsError.AlreadyClosed
  {
  }

  /** A closed connection is reported differently by the owned and the borrowed conversion. */
  lemma ClosedConnectionAsymmetry()
    ensures FromOwned(WsError.ConnectionClosed) == HassError.ConnectionClosed
    ensures FromBorrowed(WsError.ConnectionClosed) == TungsteniteError(WsError.ConnectionClosed)
  {
  }

  /** No JSON error is ever confused with a transport error. */
  lemma SerdeAndTransportErrorsDisjoint(s: SerdeError, w: WsError)
    ensures FromSerde(s) != FromOwned(w) && FromSerde(s) != FromBorrowed(w)
  {
  }

  predicate StartsWith(s: string, prefix: string)
  {
    |prefix| <= |s| && s[..|prefix|] == prefix
  }

  predicate EndsWith(s: string, suffix: string)
  {
    |suffix| <= |s| && s[|s| - |suffix|..] == suffix
  }

  /**
   * `Display` can only format a `ReponseError` whose result carries an
   * error object: it unwraps that object.
   */
  predicate Displayable(e: HassError)
  {
    e.ReponseError? ==> e.result.error.Some?
  }

  /** The text `Display` writes for an error. */
  function Display(e: HassError): (s: string)
    requires Displayable(e)
    ensures e.AuthenticationFailed? ==> EndsWith(s, e.message)
    ensures e.UnableToDeserialize? ==> EndsWith(s, e.cause.description)
    ensures e.SendError? ==> EndsWith(s, e.reason)
    ensures e.TungsteniteError? ==> EndsWith(s, Describe(e.wsError))
    ensures e.Generic? ==> EndsWith(s, e.detail)
    ensures e.ReponseError? ==> EndsWith(s, e.result.error.value.message)
    ensures e.ReponseError? ==> StartsWith(s, "The error code:" + e.result.error.value.code)
    ensures e.ConnectionClosed? || e.UnknownPayloadReceived? ==> |s| > 0
  {
    match e
    case ConnectionClosed => "Connection closed unexpectedly"
    case SendError(m) => "Unable to send the message on channel: " + m
    case AuthenticationFailed(m) => "Authentication has failed: " + m
    case UnableToDeserialize(c) => "Unable to deserialize the received value: " + c.description
    case TungsteniteError(w) => "Tungstenite Error: " + Describe(w)
    case UnknownPayloadReceived => "The received payload is unknown"
    case ReponseError(r) =>
      "The error code:" + r.error.value.code + " with the error message: " + r.error.value.message
    case Generic(d) => "Generic Error: " + d
  }

  /** The authentication failure text shown to the user determines the gateway's message. */
  lemma {:induction false} AuthenticationFailureDisplayInjective(m1: string, m2: string)
    requires Display(AuthenticationFailed(m1)) == Display(AuthenticationFailed(m2))
    ensures m1 == m2
  {
    var p := "Authentication has failed: ";
    assert Display(AuthenticationFailed(m1)) == p + m1;
    assert Display(AuthenticationFailed(m2)) == p + m2;
    assert m1 == (p + m1)[|p|..];
    assert m2 == (p + m2)[|p|..];
  }
}
