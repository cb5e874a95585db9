/**
 * The request/response engine of `HassClient` (src/client.rs, tokio build).
 *
 * The two channels to the transport tasks are explicit state: `sent` logs
 * every command handed to the outbound channel (each entry stands for the
 * frame `to_tungstenite_message` makes of it), `toGatewayOpen` says whether
 * that channel still has a receiver, and `fromGateway` holds the inbound
 * items still queued; an empty queue stands for a closed channel, which
 * `recv` reports as `None`. Requests are strictly sequential: every
 * operation sends at most one command and then consumes at most one item.
 */
module Client {
  import opened Wrappers
  import opened Protocol
  import opened Errors
  import opened Sequence

  /** What the outbound channel's `SendError` displays once its receiver is gone. */
  const CHANNEL_CLOSED: string := "channel closed"

  const NOT_AUTH_REQUIRED: string := "Expecting the first message from server to be auth_required"

  /** An item of the inbound channel: a frame, or the transport error that replaced it. */
  type Inbound = Wrappers.Result<Message, WsError>

  /** The inbound queue after one `recv`: a closed, empty channel stays empty. */
  function Rest(inbound: seq<Inbound>): (rest: seq<Inbound>)
    ensures inbound == [] ==> rest == []
    ensures inbound != [] ==> [inbound[0]] + rest == inbound
  {
    if inbound == [] then [] else inbound[1..]
  }

  /** `ws_receive`: what the next inbound item means to the caller. */
  function Receive(inbound: seq<Inbound>, parse: Parser): (r: HassResult<Response>)
    ensures r.Ok? <==> inbound != [] && inbound[0].Ok? && inbound[0].value.Text? && parse(inbound[0].value.data).Ok?
    ensures r.Ok? ==> r.value == parse(inbound[0].value.data).value
    ensures inbound == [] ==> r == Err(UnknownPayloadReceived)
    ensures inbound != [] && inbound[0].Err? ==> r == Err(FromBorrowed(inbound[0].error))
    ensures inbound != [] && inbound[0].Ok? && !inbound[0].value.Text? ==> r == Err(UnknownPayloadReceived)
    ensures inbound != [] && inbound[0].Ok? && inbound[0].value.Text? && parse(inbound[0].value.data).Err? ==>
              r == Err(UnableToDeserialize(parse(inbound[0].value.data).error))
  {
    if inbound == [] then Err(UnknownPayloadReceived)
    else match inbound[0]
      case Ok(Text(data)) =>
        (match parse(data)
         case Ok(response) => Ok(response)
         case Err(e) => Err(UnableToDeserialize(e)))
      case Ok(_) => Err(UnknownPayloadReceived)
      case Err(e) => Err(FromBorrowed(e))
  }

  /** `command`: the reply to one command, given whether the outbound channel is open. */
  function Exchange(open: bool, inbound: seq<Inbound>, parse: Parser): (r: HassResult<Response>)
    ensures !open ==> r == Err(SendError(CHANNEL_CLOSED))
    ensures open ==> r == Receive(inbound, parse)
  {
    if open then Receive(inbound, parse) else Err(SendError(CHANNEL_CLOSED))
  }

  /** The inbound queue after `command`: a failed send consumes nothing. */
  function AfterExchange(open: bool, inbound: seq<Inbound>): (rest: seq<Inbound>)
    ensures !open ==> rest == inbound
    ensures open ==> rest == Rest(inbound)
  {
    if open then Rest(inbound) else inbound
  }

  /** Rust's `?` on the reply of `command`, followed by an operation's classification. */
  function Then<T>(reply: HassResult<Response>, classify: Response -> HassResult<T>): (r: HassResult<T>)
    ensures reply.Err? ==> r == Err(reply.error)
    ensures reply.Ok? ==> r == classify(reply.value)
  {
    match reply
    case Err(e) => Err(e)
    case Ok(response) => classify(response)
  }

  /** The `auth` command carrying the caller's token; it has no id. */
  function AuthRequest(token: string): Command
  {
    AuthInit(Auth("auth", token))
  }

  /**
   * The handshake rejects its first frame only when it parses as
   * `auth_required` yet carries another type string; any other first frame,
   * error or not, is ignored.
   */
  function GreetingRejected(greeting: HassResult<Response>): (rejected: bool)
    ensures rejected ==> greeting.Ok? && greeting.value.AuthRequired?
    ensures greeting.Ok? && greeting.value == AuthRequired("auth_required") ==> !rejected
  {
    greeting.Ok? && greeting.value.AuthRequired? && greeting.value.msgType != "auth_required"
  }

  /** How the handshake reads the gateway's answer to `auth`. */
  function ClassifyAuth(response: Response): (r: HassResult<()>)
    ensures r.Ok? <==> response.AuthOk?
    ensures response.AuthInvalid? ==> r == Err(AuthenticationFailed(response.message))
    ensures !response.AuthOk? && !response.AuthInvalid? ==> r == Err(UnknownPayloadReceived)
  {
    match response
    case AuthOk(_) => Ok(())
    case AuthInvalid(_, message) => Err(AuthenticationFailed(message))
    case _ => Err(UnknownPayloadReceived)
  }

  /** How `ping` reads its reply: only `pong` succeeds, and any result, even a successful one, is an error. */
  function ClassifyPing(response: Response): (r: HassResult<string>)
    ensures r.Ok? <==> response.Pong?
    ensures r.Ok? ==> r.value == "pong"
    ensures response.Result? ==> r == Err(ReponseError(response.result))
    ensures !response.Pong? && !response.Result? ==> r == Err(UnknownPayloadReceived)
  {
    match response
    case Pong(_) => Ok("pong")
    case Result(err) => Err(ReponseError(err))
    case _ => Err(UnknownPayloadReceived)
  }

  /** The source unwraps the payload of every successful result it decodes. */
  predicate CarriesPayload(response: Response)
  {
    response.Result? && response.result.success ==> response.result.result.Some?
  }

  /** `CarriesPayload` for a reply that may be an error. */
  predicate PayloadPresent(reply: HassResult<Response>)
  {
    reply.Ok? ==> CarriesPayload(reply.value)
  }

  /**
   * How the getters (`get_config`, the three registries, `get_states`,
   * `get_services`, `get_panels`) read their reply: a successful result's
   * payload is decoded with `decode` (`serde_json::from_value`).
   */
  function ClassifyFetch<T>(response: Response, decode: Value -> Wrappers.Result<T, SerdeError>): (r: HassResult<T>)
    requires CarriesPayload(response)
    ensures r.Ok? <==> response.Result? && response.result.success && decode(response.result.result.value).Ok?
    ensures r.Ok? ==> r.value == decode(response.result.result.value).value
    ensures response.Result? && response.result.success && decode(response.result.result.value).Err? ==>
              r == Err(FromSerde(decode(response.result.result.value).error))
    ensures response.Result? && !response.result.success ==> r == Err(ReponseError(response.result))
    ensures !response.Result? ==> r == Err(UnknownPayloadReceived)
  {
    match response
    case Result(data) =>
      if data.success then
        match decode(data.result.value)
        case Ok(v) => Ok(v)
        case Err(e) => Err(FromSerde(e))
      else Err(ReponseError(data))
    case _ => Err(UnknownPayloadReceived)
  }

  /** `Then` for the getters, whose classification needs the payload to be present. */
  function FetchOutcome<T>(reply: HassResult<Response>, decode: Value -> Wrappers.Result<T, SerdeError>): (r: HassResult<T>)
    requires PayloadPresent(reply)
    ensures reply.Err? ==> r == Err(reply.error)
    ensures reply.Ok? ==> r == ClassifyFetch(reply.value, decode)
  {
    match reply
    case Err(e) => Err(e)
    case Ok(response) => ClassifyFetch(response, decode)
  }

  const CALL_SERVICE_DONE: string := "command executed successfully"

  /** How `call_service` reads its reply: any successful result means the call was executed. */
  function ClassifyCallService(response: Response): (r: HassResult<string>)
    ensures r.Ok? <==> response.Result? && response.result.success
    ensures r.Ok? ==> r.value == CALL_SERVICE_DONE
    ensures response.Result? && !response.result.success ==> r == Err(ReponseError(response.result))
    ensures !response.Result? ==> r == Err(UnknownPayloadReceived)
  {
    match response
    case Result(data) => if data.success then Ok(CALL_SERVICE_DONE) else Err(ReponseError(data))
    case _ => Err(UnknownPayloadReceived)
  }

  /** How `subscribe_event` reads its reply: a successful result is handed back whole. */
  function ClassifySubscribe(response: Response): (r: HassResult<WSResult>)
    ensures r.Ok? <==> response.Result? && response.result.success
    ensures r.Ok? ==> r.value == response.result
    ensures response.Result? && !response.result.success ==> r == Err(ReponseError(response.result))
    ensures !response.Result? ==> r == Err(UnknownPayloadReceived)
  {
    match response
    case Result(v) => if v.success then Ok(v) else Err(ReponseError(v))
    case _ => Err(UnknownPayloadReceived)
  }

  /**
   * The subscription table after `subscribe_event` read `response`: only a
   * successful result adds an entry, under the id the result carries.
   */
  function Subscribed(table: map<nat, string>, response: Response, eventName: string): (t: map<nat, string>)
    ensures ClassifySubscribe(response).Ok? ==> t.Keys == table.Keys + {response.result.id} && t[response.result.id] == eventName
    ensures ClassifySubscribe(response).Err? ==> t == table
    ensures forall k :: k in table && !(response.Result? && k == response.result.id) ==> k in t && t[k] == table[k]
  {
    if response.Result? && response.result.success then table[response.result.id := eventName] else table
  }

  const WRONG_SUBSCRIPTION: string := "Wrong subscription ID"

  /**
   * `unsubscribe_event` after reading `response`: the outcome and the new
   * subscription table. The entry is removed only when the gateway confirms
   * and the id is known; a confirmed but unknown id is an error.
   */
  function Unsubscribed(table: map<nat, string>, subscriptionId: nat, response: Response): (out: (HassResult<string>, map<nat, string>))
    ensures out.0.Ok? <==> response.Result? && response.result.success && subscriptionId in table
    ensures out.0.Ok? ==> out.0.value == "Ok"
    ensures out.0.Ok? ==> out.1.Keys == table.Keys - {subscriptionId} && forall k :: k in out.1 ==> out.1[k] == table[k]
    ensures out.0.Err? ==> out.1 == table
    ensures response.Result? && response.result.success && subscriptionId !in table ==> out.0 == Err(Generic(WRONG_SUBSCRIPTION))
    ensures response.Result? && !response.result.success ==> out.0 == Err(ReponseError(response.result))
    ensures !response.Result? ==> out.0 == Err(UnknownPayloadReceived)
  {
    match response
    case Result(v) =>
      if v.success then
        if subscriptionId in table then (Ok("Ok"), table - {subscriptionId})
        else (Err(Generic(WRONG_SUBSCRIPTION)), table)
      else (Err(ReponseError(v)), table)
    case _ => (Err(UnknownPayloadReceived), table)
  }

  /**
   * `check_if_event`: a frame is an event only if it is text that parses
   * to an event; a transport error is converted as a borrowed error.
   */
  function CheckIfEvent(message: Inbound, parse: Parser): (r: HassResult<WSEvent>)
    ensures r.Ok? <==> message.Ok? && message.value.Text? && parse(message.value.data).Ok? && parse(message.value.data).value.Event?
    ensures r.Ok? ==> r.value == parse(message.value.data).value.event
    ensures message.Err? ==> r == Err(FromBorrowed(message.error))
    ensures message.Ok? && r.Err? ==> r == Err(UnknownPayloadReceived)
  {
    match message
    case Ok(Text(data)) =>
      (match parse(data)
       case Ok(Event(event)) => Ok(event)
       case _ => Err(UnknownPayloadReceived))
    case Err(error) => Err(FromBorrowed(error))
    case _ => Err(UnknownPayloadReceived)
  }

  /** `HassClient`: the allocator, the subscription table and the two channel ends. */
  class HassClient {
    const lastSequence: Counter
    var subscriptions: map<nat, string>
    var toGatewayOpen: bool
    var sent: seq<Command>
    var fromGateway: seq<Inbound>

    /** `HassClient::new`: the counter starts at 1 and no subscription exists. */
    constructor (toGatewayOpen: bool, fromGateway: seq<Inbound>)
      ensures fresh(lastSequence) && lastSequence.value == 1
      ensures subscriptions == map[] && sent == []
      ensures this.toGatewayOpen == toGatewayOpen && this.fromGateway == fromGateway
    {
      lastSequence := new Counter(1);
      subscriptions := map[];
      this.toGatewayOpen := toGatewayOpen;
      sent := [];
      this.fromGateway := fromGateway;
    }

    /** `ws_receive`: take the next inbound item, if any, and interpret it. */
    method WsReceive(parse: Parser) returns (r: HassResult<Response>)
      modifies this`fromGateway
      ensures r == Receive(old(fromGateway), parse)
      ensures fromGateway == Rest(old(fromGateway))
    {
      if fromGateway == [] {
        return Err(UnknownPayloadReceived);
      }
      var item := fromGateway[0];
      fromGateway := fromGateway[1..];
      match item
      case Ok(message) =>
        if message.Text? {
          var payload := parse(message.data);
          r := if payload.Ok? then Ok(payload.value) else Err(UnableToDeserialize(payload.error));
        } else {
          r := Err(UnknownPayloadReceived);
        }
      case Err(error) =>
        r := Err(FromBorrowed(error));
    }

    /** `command`: send one command, then receive one reply; a failed send receives nothing. */
    method RunCommand(cmd: Command, parse: Parser) returns (r: HassResult<Response>)
      modifies this`sent, this`fromGateway
      ensures sent == old(sent) + (if toGatewayOpen then [cmd] else [])
      ensures fromGateway == AfterExchange(toGatewayOpen, old(fromGateway))
      ensures r == Exchange(toGatewayOpen, old(fromGateway), parse)
    {
      if !toGatewayOpen {
        return Err(SendError(CHANNEL_CLOSED));
      }
      sent := sent + [cmd];
      r := WsReceive(parse);
    }

    /**
     * `auth_with_longlivedtoken`: consume the greeting, send the token in one
     * `auth` command without an id, and read the verdict. The counter is
     * not touched.
     */
    method AuthWithLongLivedToken(token: string, parse: Parser) returns (r: HassResult<()>)
      modifies this`sent, this`fromGateway
      ensures var greeting := Receive(old(fromGateway), parse);
              var rest := Rest(old(fromGateway));
              if GreetingRejected(greeting) then
                r == Err(Generic(NOT_AUTH_REQUIRED)) && sent == old(sent) && fromGateway == rest
              else
                && sent == old(sent) + (if toGatewayOpen then [AuthRequest(token)] else [])
                && fromGateway == AfterExchange(toGatewayOpen, rest)
                && r == Then(Exchange(toGatewayOpen, rest, parse), ClassifyAuth)
    {
      var greeting := WsReceive(parse);
      if greeting.Ok? && greeting.value.AuthRequired? && greeting.value.msgType != "auth_required" {
        return Err(Generic(NOT_AUTH_REQUIRED));
      }
      var response :- RunCommand(AuthRequest(token), parse);
      r := ClassifyAuth(response);
    }

    /** `ping`: allocate an id, send `ping`, expect `pong`. */
    method Ping(parse: Parser) returns (r: HassResult<string>)
      requires lastSequence.value != 0
      modifies this`sent, this`fromGateway, lastSequence
      ensures lastSequence.value == Successor(old(lastSequence.value))
      ensures sent == old(sent) + (if toGatewayOpen then [Command.Ping(Ask(Some(old(lastSequence.value)), "ping"))] else [])
      ensures fromGateway == AfterExchange(toGatewayOpen, old(fromGateway))
      ensures r == Then(Exchange(toGatewayOpen, old(fromGateway), parse), ClassifyPing)
    {
      var id := lastSequence.GetLastSeq();
      var response :- RunCommand(Command.Ping(Ask(Some(id.value), "ping")), parse);
      r := ClassifyPing(response);
    }

    /** The shared body of the getters: send `cmd`, then decode a successful result. */
    method Fetch<T>(cmd: Command, parse: Parser, decode: Value -> Wrappers.Result<T, SerdeError>) returns (r: HassResult<T>)
      requires toGatewayOpen ==> PayloadPresent(Receive(fromGateway, parse))
      modifies this`sent, this`fromGateway
      ensures sent == old(sent) + (if toGatewayOpen then [cmd] else [])
      ensures fromGateway == AfterExchange(toGatewayOpen, old(fromGateway))
      ensures r == FetchOutcome(Exchange(toGatewayOpen, old(fromGateway), parse), decode)
    {
      var response :- RunCommand(cmd, parse);
      r := ClassifyFetch(response, decode);
    }

    /** `get_config`: allocate an id and fetch the configuration. */
    method GetConfig<T>(parse: Parser, decode: Value -> Wrappers.Result<T, SerdeError>) returns (r: HassResult<T>)
      requires lastSequence.value != 0
      requires toGatewayOpen ==> PayloadPresent(Receive(fromGateway, parse))
      modifies this`sent, this`fromGateway, lastSequence
      ensures lastSequence.value == Successor(old(lastSequence.value))
      ensures sent == old(sent) + (if toGatewayOpen then [Command.GetConfig(Ask(Some(old(lastSequence.value)), "get_config"))] else [])
      ensures fromGateway == AfterExchange(toGatewayOpen, old(fromGateway))
      ensures r == FetchOutcome(Exchange(toGatewayOpen, old(fromGateway), parse), decode)
    {
      var id := lastSequence.GetLastSeq();
      r := Fetch(Command.GetConfig(Ask(Some(id.value), "get_config")), parse, decode);
    }

    /** `get_area_registry`: sent with the fixed id 0; no id is allocated. */
    method GetAreaRegistry<T>(parse: Parser, decode: Value -> Wrappers.Result<T, SerdeError>) returns (r: HassResult<T>)
      requires toGatewayOpen ==> PayloadPresent(Receive(fromGateway, parse))
      modifies this`sent, this`fromGateway
      ensures sent == old(sent) + (if toGatewayOpen then [Command.GetConfig(Ask(Some(0), "config/area_registry/list"))] else [])
      ensures fromGateway == AfterExchange(toGatewayOpen, old(fromGateway))
      ensures r == FetchOutcome(Exchange(toGatewayOpen, old(fromGateway), parse), decode)
    {
      r := Fetch(Command.GetConfig(Ask(Some(0), "config/area_registry/list")), parse, decode);
    }

    /** `get_device_registry`: sent with the fixed id 0; no id is allocated. */
    method GetDeviceRegistry<T>(parse: Parser, decode: Value -> Wrappers.Result<T, SerdeError>) returns (r: HassResult<T>)
      requires toGatewayOpen ==> PayloadPresent(Receive(fromGateway, parse))
      modifies this`sent, this`fromGateway
      ensures sent == old(sent) + (if toGatewayOpen then [Command.GetConfig(Ask(Some(0), "config/device_registry/list"))] else [])
      ensures fromGateway == AfterExchange(toGatewayOpen, old(fromGateway))
      ensures r == FetchOutcome(Exchange(toGatewayOpen, old(fromGateway), parse), decode)
    {
      r := Fetch(Command.GetConfig(Ask(Some(0), "config/device_registry/list")), parse, decode);
    }

    /** `get_entity_registry`: sent with the fixed id 0; no id is allocated. */
    method GetEntityRegistry<T>(parse: Parser, decode: Value -> Wrappers.Result<T, SerdeError>) returns (r: HassResult<T>)
      requires toGatewayOpen ==> PayloadPresent(Receive(fromGateway, parse))
      modifies this`sent, this`fromGateway
      ensures sent == old(sent) + (if toGatewayOpen then [Command.GetConfig(Ask(Some(0), "config/entity_registry/list"))] else [])
      ensures fromGateway == AfterExchange(toGatewayOpen, old(fromGateway))
      ensures r == FetchOutcome(Exchange(toGatewayOpen, old(fromGateway), parse), decode)
    {
      r := Fetch(Command.GetConfig(Ask(Some(0), "config/entity_registry/list")), parse, decode);
    }

    /** `get_states`: allocate an id and fetch every entity state. */
    method GetStates<T>(parse: Parser, decode: Value -> Wrappers.Result<T, SerdeError>) returns (r: HassResult<T>)
      requires lastSequence.value != 0
      requires toGatewayOpen ==> PayloadPresent(Receive(fromGateway, parse))
      modifies this`sent, this`fromGateway, lastSequence
      ensures lastSequence.value == Successor(old(lastSequence.value))
      ensures sent == old(sent) + (if toGatewayOpen then [Command.GetStates(Ask(Some(old(lastSequence.value)), "get_states"))] else [])
      ensures fromGateway == AfterExchange(toGatewayOpen, old(fromGateway))
      ensures r == FetchOutcome(Exchange(toGatewayOpen, old(fromGateway), parse), decode)
    {
      var id := lastSequence.GetLastSeq();
      r := Fetch(Command.GetStates(Ask(Some(id.value), "get_states")), parse, decode);
    }

    /** `get_services`: allocate an id and fetch the service catalogue. */
    method GetServices<T>(parse: Parser, decode: Value -> Wrappers.Result<T, SerdeError>) returns (r: HassResult<T>)
      requires lastSequence.value != 0
      requires toGatewayOpen ==> PayloadPresent(Receive(fromGateway, parse))
      modifies this`sent, this`fromGateway, lastSequence
      ensures lastSequence.value == Successor(old(lastSequence.value))
      ensures sent == old(sent) + (if toGatewayOpen then [Command.GetServices(Ask(Some(old(lastSequence.value)), "get_services"))] else [])
      ensures fromGateway == AfterExchange(toGatewayOpen, old(fromGateway))
      ensures r == FetchOutcome(Exchange(toGatewayOpen, old(fromGateway), parse), decode)
    {
      var id := lastSequence.GetLastSeq();
      r := Fetch(Command.GetServices(Ask(Some(id.value), "get_services")), parse, decode);
    }

    /** `get_panels`: allocate an id and fetch the registered panels. */
    method GetPanels<T>(parse: Parser, decode: Value -> Wrappers.Result<T, SerdeError>) returns (r: HassResult<T>)
      requires lastSequence.value != 0
      requires toGatewayOpen ==> PayloadPresent(Receive(fromGateway, parse))
      modifies this`sent, this`fromGateway, lastSequence
      ensures lastSequence.value == Successor(old(lastSequence.value))
      ensures sent == old(sent) + (if toGatewayOpen then [Command.GetPanels(Ask(Some(old(lastSequence.value)), "get_panels"))] else [])
      ensures fromGateway == AfterExchange(toGatewayOpen, old(fromGateway))
      ensures r == FetchOutcome(Exchange(toGatewayOpen, old(fromGateway), parse), decode)
    {
      var id := lastSequence.GetLastSeq();
      r := Fetch(Command.GetPanels(Ask(Some(id.value), "get_panels")), parse, decode);
    }

    /** `call_service`: allocate an id, send the call, and report whether the gateway executed it. */
    method CallService(domain: string, service: string, serviceData: Option<Value>, parse: Parser) returns (r: HassResult<string>)
      requires lastSequence.value != 0
      modifies this`sent, this`fromGateway, lastSequence
      ensures lastSequence.value == Successor(old(lastSequence.value))
      ensures sent == old(sent) + (if toGatewayOpen then
                [Command.CallService(CallServiceRequest(Some(old(lastSequence.value)), "call_service", domain, service, serviceData))]
                else [])
      ensures fromGateway == AfterExchange(toGatewayOpen, old(fromGateway))
      ensures r == Then(Exchange(toGatewayOpen, old(fromGateway), parse), ClassifyCallService)
    {
      var id := lastSequence.GetLastSeq();
      var request := CallServiceRequest(Some(id.value), "call_service", domain, service, serviceData);
      var response :- RunCommand(Command.CallService(request), parse);
      r := ClassifyCallService(response);
    }

    /**
     * `subscribe_event`: allocate an id, send `subscribe_events`, and on a
     * successful result record the result's id against the event name.
     * The source unwraps the reply, so the exchange must succeed.
     */
    method SubscribeEvent(eventName: string, parse: Parser) returns (r: HassResult<WSResult>)
      requires lastSequence.value != 0
      requires toGatewayOpen && Receive(fromGateway, parse).Ok?
      modifies this`sent, this`fromGateway, this`subscriptions, lastSequence
      ensures lastSequence.value == Successor(old(lastSequence.value))
      ensures sent == old(sent) + [Command.SubscribeEvent(SubscribeRequest(Some(old(lastSequence.value)), "subscribe_events", eventName))]
      ensures fromGateway == Rest(old(fromGateway))
      ensures var response := Receive(old(fromGateway), parse).value;
              r == ClassifySubscribe(response) && subscriptions == Subscribed(old(subscriptions), response, eventName)
    {
      var id := lastSequence.GetLastSeq();
      var request := SubscribeRequest(Some(id.value), "subscribe_events", eventName);
      var reply := RunCommand(Command.SubscribeEvent(request), parse);
      var response := reply.value;
      match response
      case Result(v) =>
        if v.success {
          subscriptions := subscriptions[v.id := eventName];
          r := Ok(v);
        } else {
          r := Err(ReponseError(v));
        }
      case _ =>
        r := Err(UnknownPayloadReceived);
    }

    /**
     * `unsubscribe_event`: allocate an id and always send
     * `unsubscribe_events`; remove the entry only when the gateway confirms
     * and the id is known. The source unwraps the reply.
     */
    method UnsubscribeEvent(subscriptionId: nat, parse: Parser) returns (r: HassResult<string>)
      requires lastSequence.value != 0
      requires toGatewayOpen && Receive(fromGateway, parse).Ok?
      modifies this`sent, this`fromGateway, this`subscriptions, lastSequence
      ensures lastSequence.value == Successor(old(lastSequence.value))
      ensures sent == old(sent) + [Command.Unsubscribe(UnsubscribeRequest(Some(old(lastSequence.value)), "unsubscribe_events", subscriptionId))]
      ensures fromGateway == Rest(old(fromGateway))
      ensures (r, subscriptions) == Unsubscribed(old(subscriptions), subscriptionId, Receive(old(fromGateway), parse).value)
    {
      var id := lastSequence.GetLastSeq();
      var request := UnsubscribeRequest(Some(id.value), "unsubscribe_events", subscriptionId);
      var reply := RunCommand(Command.Unsubscribe(request), parse);
      var response := reply.value;
      match response
      case Result(v) =>
        if v.success {
          if subscriptionId in subscriptions {
            subscriptions := subscriptions - {subscriptionId};
            r := Ok("Ok");
          } else {
            r := Err(Generic(WRONG_SUBSCRIPTION));
          }
        } else {
          r := Err(ReponseError(v));
        }
      case _ =>
        r := Err(UnknownPayloadReceived);
    }
  }

  /** A result with `success == false` is reported as that same result, by every operation, and leaves the table alone. */
  lemma GatewayFailureReportedUniformly<T>(res: WSResult, decode: Value -> Wrappers.Result<T, SerdeError>,
                                           table: map<nat, string>, eventName: string, subscriptionId: nat)
    requires !res.success
    ensures ClassifyPing(Result(res)) == Err(ReponseError(res))
    ensures ClassifyFetch(Result(res), decode) == Err(ReponseError(res))
    ensures ClassifyCallService(Result(res)) == Err(ReponseError(res))
    ensures ClassifySubscribe(Result(res)) == Err(ReponseError(res))
    ensures Subscribed(table, Result(res), eventName) == table
    ensures Unsubscribed(table, subscriptionId, Result(res)) == (Err(ReponseError(res)), table)
  {
  }

  /** A reply of an unexpected kind is `UnknownPayloadReceived` for every operation and leaves the table alone. */
  lemma UnexpectedReplyReportedUniformly<T>(response: Response, decode: Value -> Wrappers.Result<T, SerdeError>,
                                            table: map<nat, string>, eventName: string, subscriptionId: nat)
    requires !response.Result? && !response.Pong?
    ensures ClassifyPing(response) == Err(UnknownPayloadReceived)
    ensures ClassifyFetch(response, decode) == Err(UnknownPayloadReceived)
    ensures ClassifyCallService(response) == Err(UnknownPayloadReceived)
    ensures ClassifySubscribe(response) == Err(UnknownPayloadReceived)
    ensures Subscribed(table, response, eventName) == table
    ensures Unsubscribed(table, subscriptionId, response) == (Err(UnknownPayloadReceived), table)
  {
  }

  /**
   * `ping` treats even a successful result as an error, where `call_service`
   * accepts it; such a result usually has no error object, and then the
   * error `ping` returns is outside what `Display` can format.
   */
  lemma PingRejectsSuccessfulResult(res: WSResult)
    requires res.success
    ensures ClassifyPing(Result(res)) == Err(ReponseError(res))
    ensures ClassifyCallService(Result(res)).Ok?
    ensures res.error.None? ==> !Displayable(ClassifyPing(Result(res)).error)
  {
  }

  /**
   * Subscribing under a fresh id and then unsubscribing with the id the
   * gateway returned succeeds and restores the table.
   */
  lemma SubscribeThenUnsubscribeRestoresTable(table: map<nat, string>, ack: WSResult, confirm: WSResult, eventName: string)
    requires ack.success && confirm.success && ack.id !in table
    ensures ClassifySubscribe(Result(ack)) == Ok(ack)
    ensures Unsubscribed(Subscribed(table, Result(ack), eventName), ack.id, Result(confirm)) == (Ok("Ok"), table)
  {
    var t := Subscribed(table, Result(ack), eventName);
    assert t - {ack.id} == table;
  }

  /**
   * `check_if_event` accepts exactly the frames that `ws_receive` would
   * deliver as an event, and converts transport errors the same way;
   * unlike `ws_receive`, it reports a parse failure as an unknown payload.
   */
  lemma CheckIfEventAgreesWithReceive(message: Inbound, parse: Parser)
    ensures CheckIfEvent(message, parse).Ok? <==> Receive([message], parse).Ok? && Receive([message], parse).value.Event?
    ensures CheckIfEvent(message, parse).Ok? ==> Receive([message], parse).value == Event(CheckIfEvent(message, parse).value)
    ensures message.Err? ==> CheckIfEvent(message, parse).error == Receive([message], parse).error == FromBorrowed(message.error)
    ensures message.Ok? && message.value.Text? && parse(message.value.data).Err? ==>
              CheckIfEvent(message, parse) == Err(UnknownPayloadReceived) && Receive([message], parse).error.UnableToDeserialize?
  {
  }

  /**
   * A fresh client stamps its requests 1, 2, ... in the order it sends
   * them, while the registry listings go out with id 0 and skip the counter.
   */
  method FreshClientNumbersRequests<T>(inbound: seq<Inbound>, parse: Parser, decode: Value -> Wrappers.Result<T, SerdeError>)
    returns (sent: seq<Command>, next: u64)
    requires PayloadPresent(Receive(Rest(inbound), parse))
    ensures |sent| == 3
    ensures sent[0].Id() == Some(1) && sent[1].Id() == Some(0) && sent[2].Id() == Some(2)
    ensures next == 3
  {
    var client := new HassClient(true, inbound);
    var _ := client.Ping(parse);
    var _ := client.GetAreaRegistry(parse, decode);
    var _ := client.CallService("homeassistant", "update_entity", None, parse);
    sent := client.sent;
    next := client.lastSequence.value;
  }

  /**
   * A session that subscribes and then unsubscribes with the returned
   * handle succeeds both times and ends with an empty table.
   */
  method SubscribeThenUnsubscribe(eventName: string, ack: string, confirm: string, parse: Parser)
    returns (subscribed: HassResult<WSResult>, unsubscribed: HassResult<string>, table: map<nat, string>)
    requires parse(ack).Ok? && parse(ack).value.Result? && parse(ack).value.result.success
    requires parse(confirm).Ok? && parse(confirm).value.Result? && parse(confirm).value.result.success
    ensures subscribed == Ok(parse(ack).value.result)
    ensures unsubscribed == Ok("Ok")
    ensures table == map[]
  {
    var client := new HassClient(true, [Ok(Text(ack)), Ok(Text(confirm))]);
    subscribed := client.SubscribeEvent(eventName, parse);
    assert client.subscriptions == map[parse(ack).value.result.id := eventName];
    unsubscribed := client.UnsubscribeEvent(subscribed.value.id, parse);
    table := client.subscriptions;
  }

  /**
   * A handshake answered by `auth_required` and then `auth_invalid` fails
   * with the gateway's message, after sending exactly the one `auth` command.
   */
  method RejectedHandshake(token: string, greeting: string, verdict: string, parse: Parser)
    returns (r: HassResult<()>, sent: seq<Command>)
    requires parse(greeting) == Ok(AuthRequired("auth_required"))
    requires parse(verdict).Ok? && parse(verdict).value.AuthInvalid?
    ensures r == Err(AuthenticationFailed(parse(verdict).value.message))
    ensures sent == [AuthInit(Auth("auth", token))]
  {
    var client := new HassClient(true, [Ok(Text(greeting)), Ok(Text(verdict))]);
    r := client.AuthWithLongLivedToken(token, parse);
    sent := client.sent;
  }
}
