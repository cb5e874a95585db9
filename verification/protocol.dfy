/**
 * The data shapes of the Home Assistant WebSocket protocol that the client
 * core builds or reads. The crate's `types` module, which declares them, is
 * not part of this model: only the fields the core touches are kept, and
 * JSON payloads the core passes through unread are the opaque `Value`.
 */
module Protocol {
  import opened Wrappers

  /** A JSON value (`serde_json::Value`) that the core never looks inside. */
  datatype Value = Value(json: string)

  /**
   * A transport error (`tungstenite::Error`). The core singles out the two
   * close-related variants; `Other` stands for every remaining variant and
   * carries that error's display text.
   */
  datatype WsError = ConnectionClosed | AlreadyClosed | Other(description: string)

  /** Display text of a transport error (tungstenite's own wording for the close variants). */
  function Describe(e: WsError): string
  {
    match e
    case ConnectionClosed => "Connection closed normally"
    case AlreadyClosed => "Trying to work with closed connection"
    case Other(d) => d
  }

  /** A JSON (de)serialisation error (`serde_json::Error`) with its display text. */
  datatype SerdeError = SerdeError(description: string)

  /** A WebSocket frame as the transport delivers it (`tungstenite::Message`). */
  datatype Message =
    | Text(data: string)
    | Binary(bytes: seq<bv8>)
    | PingFrame(payload: seq<bv8>)
    | PongFrame(payload: seq<bv8>)
    | CloseFrame

  /** Payload of the id-only requests (`ping`, `get_config`, `get_states`, ...). */
  datatype Ask = Ask(id: Option<nat>, msgType: string)

  /** Payload of the `auth` request; it never carries an id. */
  datatype Auth = Auth(msgType: string, accessToken: string)

  datatype SubscribeRequest = SubscribeRequest(id: Option<nat>, msgType: string, eventType: string)

  datatype UnsubscribeRequest = UnsubscribeRequest(id: Option<nat>, msgType: string, subscription: nat)

  datatype CallServiceRequest =
    CallServiceRequest(id: Option<nat>, msgType: string, domain: string, service: string, serviceData: Option<Value>)

  /** A client-to-gateway request (`Command`). */
  datatype Command =
    | Close
    | AuthInit(auth: Auth)
    | Ping(ask: Ask)
    | SubscribeEvent(subscribe: SubscribeRequest)
    | Unsubscribe(unsubscribe: UnsubscribeRequest)
    | GetConfig(ask: Ask)
    | GetStates(ask: Ask)
    | GetServices(ask: Ask)
    | GetPanels(ask: Ask)
    | CallService(call: CallServiceRequest)
  {
    /** The message id the request carries; `Close` and `AuthInit` have no id field. */
    function Id(): Option<nat>
    {
      match this
      case Close => None
      case AuthInit(_) => None
      case Ping(a) => a.id
      case SubscribeEvent(s) => s.id
      case Unsubscribe(u) => u.id
      case GetConfig(a) => a.id
      case GetStates(a) => a.id
      case GetServices(a) => a.id
      case GetPanels(a) => a.id
      case CallService(c) => c.id
    }
  }

  /** The `{code, message}` object of a failed result. */
  datatype ErrorCode = ErrorCode(code: string, message: string)

  /** A `result` frame: the id it answers, the success flag, and the optional payload and error. */
  datatype WSResult = WSResult(id: nat, msgType: string, success: bool, result: Option<Value>, error: Option<ErrorCode>)

  datatype WSPong = WSPong(id: nat, msgType: string)

  /** An `event` frame; `id` is the id of the subscription it belongs to. */
  datatype WSEvent = WSEvent(id: nat, msgType: string, event: Value)

  /** A gateway-to-client frame (`Response`), tagged by its `type` field. */
  datatype Response =
    | AuthRequired(msgType: string)
    | AuthOk(msgType: string)
    | AuthInvalid(msgType: string, message: string)
    | Result(result: WSResult)
    | Pong(pong: WSPong)
    | Event(event: WSEvent)

  /** What the JSON parser (`serde_json::from_str`) makes of a text frame. */
  type Parser = string -> Wrappers.Result<Response, SerdeError>
}
