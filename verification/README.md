# hass-rs client core, modelled in Dafny

hass-rs is an async Rust client for the Home Assistant WebSocket API.
This project models the sequential logic under its I/O:

- **`HassClient`** (src/client.rs). It has a message-id allocator and a table of active subscriptions.
  - The authentication handshake, and one classification rule per operation that turns the single reply into a result or an error.
  - `command`: one send followed by one receive.
  - `ws_receive` and `check_if_event`.
- **The two `WsConn` loops** (src/wsconn.rs).
  - `sender_loop` stamps ids and writes commands to the socket.
  - `receiver_loop` routes events to listeners and forwards everything else to the client.
- **Error conversions** (src/errors.rs). These are the `From` conversions into `HassError` and its `Display` text.

Modules:

- `Wrappers`: `Option` and `Result`. `Result` supports `:-`, which plays the role of Rust's `?`.
- `Protocol`: the commands, responses and WebSocket frames the core reads. Only the fields the core uses are declared.
- `Errors`: `HassError`, `FromOwned` / `FromBorrowed` / `FromSerde`, and `Display`.
- `Sequence`: the shared `AtomicU64` as a `Counter` class with `GetLastSeq`.
  - The 64-bit wrap-around of `fetch_add` is written out.
- `Client`: a `HassClient` class whose fields are updated in place.
  - `subscriptions` is the subscription table.
  - `sent` logs every command handed to the outbound channel.
  - `toGatewayOpen` says whether that channel still has a receiver.
  - `fromGateway` is the queue of inbound items. An empty queue is a closed channel, which `recv` reports as `None`.
  - Each operation is a method. Its contract gives the new counter, log, queue and table and the returned value, in terms of a pure classification function. Lemmas relate the classifications.
- `WsConn`: each loop is an imperative method over an explicit queue.
  - Each method is proved equal to a recursive reference function (`RunSender`, `RunReceiver`).
  - The loops' properties are lemmas about those functions.
  - Whether a socket write fails is an input: `fault(k)` is the error, if any, of the write attempted after `k` successful writes.

JSON parsing (`serde_json::from_str`) and payload decoding (`serde_json::from_value`) are function parameters (`parse`, `decode`). Their results are treated as given.

Where the code and its documented intent differ, the model follows the code:

- **The handshake's first frame.** The handshake rejects its first frame only when that frame parses as `auth_required` but carries another type string. Any other first frame is ignored, including an error, a different response or a closed channel (`GreetingRejected`).
- **`ping` and results.** `ping` treats every `Result` reply as an error, even a successful one. Such an error usually has no error object, and then `Display` would panic on it (`PingRejectsSuccessfulResult`).
- **`get_panels`.** `sender_loop` sends a `get_panels` request as a `GetServices` command (`Encode`).
- **No correlation by id.** Replies are not matched to requests by id. Each operation simply takes the next inbound item.
- **Unknown events.** An event whose id has no listener reaches `todo!`, and the receiver loop panics (`Unrouted`, `halted`).
- **Loops that keep running.** A closed command channel does not stop the sender loop. The end of the frame stream and transport errors do not stop the receiver loop.

## Model

| member | source | states |
|---|---|---|
| Errors.FromOwned | src/errors.rs:88-95 | an owned transport error becomes `HassError::ConnectionClosed` exactly when it is `ConnectionClosed`; every other error is wrapped as `TungsteniteError` |
| Errors.FromBorrowed | src/errors.rs:97-108 | a borrowed error is never `HassError::ConnectionClosed`; it is `Generic("Error from ws " + text)` exactly for the errors other than the two close variants, which are wrapped as `TungsteniteError` |
| Errors.FromSerde | src/errors.rs:82-86 | every JSON error becomes `UnableToDeserialize` carrying that error |
| Errors.OwnedAndBorrowedAgreeOnlyOnAlreadyClosed | src/errors.rs:88-108 | the owned and borrowed conversions give the same error if and only if the input is `AlreadyClosed` |
| Errors.ClosedConnectionAsymmetry | src/errors.rs:91-106 | a closed connection is `HassError::ConnectionClosed` when owned but `TungsteniteError(ConnectionClosed)` when borrowed |
| Errors.SerdeAndTransportErrorsDisjoint | src/errors.rs:82-108 | no JSON error converts to the same `HassError` as any transport error |
| Errors.Display | src/errors.rs:49-73 | `Display` is defined only where a `ReponseError` carries an error object; each text ends with the variant's payload, and a response error starts with its code |
| Errors.AuthenticationFailureDisplayInjective | src/errors.rs:55 | two authentication failures display the same text only if the gateway's messages are equal |
| Sequence.Successor | src/client.rs:543 | the counter after `fetch_add(1)` is one higher, wrapping from 2^64-1 to 0 |
| Sequence.IdOf | src/client.rs:543-546 | the allocated id is `None` exactly when the previous counter value was 0, and otherwise that value |
| Sequence.Counter.constructor | src/client.rs:41 | a new counter holds its initial value |
| Sequence.Counter.GetLastSeq | src/client.rs:541-547 | `get_last_seq` (also src/wsconn.rs:75-81) raises the counter by one (mod 2^64) and returns the previous value as an id |
| Sequence.Allocations | src/client.rs:541-547 | `n` successive allocations give `n` ids, the first being the id of the current value |
| Sequence.AllocationsCountUp | src/client.rs:541-547 | from a counter `v >= 1` away from the wrap-around, successive ids are `Some(v)`, `Some(v+1)`, ... |
| Sequence.FreshAllocatorStartsAtOne | src/client.rs:41-42 | a counter started at 1 hands out `Some(1)`, `Some(2)`, ..., strictly increasing |
| Client.Rest | src/client.rs:469 | a `recv` consumes the first queued item; a closed, empty channel stays empty |
| Client.Receive | src/client.rs:467-488 | `ws_receive` succeeds exactly on a text frame that parses, returning the parsed response; a non-text frame or a closed channel is `UnknownPayloadReceived`, a parse failure `UnableToDeserialize`, a transport error its borrowed conversion |
| Client.Exchange | src/client.rs:446-464 | `command` fails with `SendError("channel closed")` when the outbound channel is closed, and otherwise answers what the next receive answers |
| Client.AfterExchange | src/client.rs:446-464 | a failed send consumes nothing; a successful one consumes exactly one inbound item |
| Client.Then | src/client.rs:75 | `?` on a reply propagates its error unchanged and otherwise applies the operation's classification |
| Client.GreetingRejected | src/client.rs:61-67 | the greeting is rejected only when it parses as `AuthRequired` with another type string; a genuine `auth_required` is never rejected |
| Client.ClassifyAuth | src/client.rs:78-82 | the handshake succeeds exactly on `AuthOk`; `AuthInvalid` gives `AuthenticationFailed` with the gateway's message, anything else `UnknownPayloadReceived` |
| Client.ClassifyPing | src/client.rs:100-104 | `ping` succeeds with "pong" exactly on `Pong`; any `Result` is a `ReponseError` carrying it, anything else `UnknownPayloadReceived` |
| Client.ClassifyFetch | src/client.rs:121-132 | a getter succeeds exactly on a successful result whose payload decodes, returning the decoded value; a decode failure is `UnableToDeserialize`, a failed result a `ReponseError` carrying it, anything else `UnknownPayloadReceived` |
| Client.FetchOutcome | src/client.rs:119-132 | a getter propagates a failed exchange and otherwise classifies the reply |
| Client.ClassifyCallService | src/client.rs:373-379 | `call_service` succeeds with "command executed successfully" exactly on a successful result; a failed result is a `ReponseError` carrying it, anything else `UnknownPayloadReceived` |
| Client.ClassifySubscribe | src/client.rs:404-411 | `subscribe_event` succeeds exactly on a successful result and returns that result; a failed result is a `ReponseError`, anything else `UnknownPayloadReceived` |
| Client.Subscribed | src/client.rs:404-408 | only a successful result adds an entry, under the result's id and mapped to the event name; every other entry is kept |
| Client.Unsubscribed | src/client.rs:433-442 | `unsubscribe_event` succeeds with "Ok" exactly when the gateway confirms and the id is known, and then removes only that entry; a confirmed unknown id is `Generic("Wrong subscription ID")`; every failure leaves the table unchanged |
| Client.CheckIfEvent | src/client.rs:517-538 | `check_if_event` succeeds exactly on a text frame that parses to an event, returning the event; a transport error is its borrowed conversion, anything else `UnknownPayloadReceived` |
| Client.HassClient.constructor | src/client.rs:37-50 | a new client has a fresh counter at 1, an empty subscription table and nothing sent |
| Client.HassClient.WsReceive | src/client.rs:467-488 | consumes exactly one inbound item (none from a closed channel) and returns its interpretation `Receive` |
| Client.HassClient.RunCommand | src/client.rs:446-464 | appends the command to the outbound log only if the channel is open, then receives one reply; a failed send leaves the inbound queue untouched |
| Client.HassClient.AuthWithLongLivedToken | src/client.rs:59-83 | consumes the greeting; unless it is rejected, sends exactly one `auth` command holding the token and no id, and classifies the reply with `ClassifyAuth`; the counter is not touched |
| Client.HassClient.Ping | src/client.rs:88-105 | allocates the next id, sends `ping` with it, and classifies the reply with `ClassifyPing` |
| Client.HassClient.Fetch | src/client.rs:119-132 | the getters' shared body: sends the command and decodes the reply through `FetchOutcome` |
| Client.HassClient.GetConfig | src/client.rs:111-133 | allocates the next id, sends `get_config` with it, and decodes the reply |
| Client.HassClient.GetAreaRegistry | src/client.rs:159-177 | sends `config/area_registry/list` with the fixed id 0, leaves the counter alone, and decodes the reply |
| Client.HassClient.GetDeviceRegistry | src/client.rs:203-221 | sends `config/device_registry/list` with the fixed id 0, leaves the counter alone, and decodes the reply |
| Client.HassClient.GetEntityRegistry | src/client.rs:247-265 | sends `config/entity_registry/list` with the fixed id 0, leaves the counter alone, and decodes the reply |
| Client.HassClient.GetStates | src/client.rs:271-292 | allocates the next id, sends `get_states` with it, and decodes the reply |
| Client.HassClient.GetServices | src/client.rs:298-319 | allocates the next id, sends `get_services` with it, and decodes the reply |
| Client.HassClient.GetPanels | src/client.rs:325-346 | allocates the next id, sends `get_panels` with it, and decodes the reply |
| Client.HassClient.CallService | src/client.rs:355-380 | allocates the next id, sends the service call with domain, service and data, and classifies the reply with `ClassifyCallService` |
| Client.HassClient.SubscribeEvent | src/client.rs:390-412 | allocates the next id, sends `subscribe_events`, returns `ClassifySubscribe` of the reply and updates the table as `Subscribed` says |
| Client.HassClient.UnsubscribeEvent | src/client.rs:419-443 | allocates the next id, always sends `unsubscribe_events`, and returns and updates the table as `Unsubscribed` says |
| Client.GatewayFailureReportedUniformly | src/client.rs:121-132 | a result with `success == false` is reported as a `ReponseError` carrying that same result by `ping`, the getters, `call_service`, subscribe and unsubscribe, and leaves the table unchanged |
| Client.UnexpectedReplyReportedUniformly | src/client.rs:373-379 | a reply that is neither a result nor a pong is `UnknownPayloadReceived` for every operation and leaves the table unchanged |
| Client.PingRejectsSuccessfulResult | src/client.rs:100-104 | `ping` rejects a successful result that `call_service` accepts, and without an error object that rejection cannot be displayed |
| Client.SubscribeThenUnsubscribeRestoresTable | src/client.rs:404-442 | subscribing under a fresh id and unsubscribing with the id the gateway returned succeeds and restores the table |
| Client.CheckIfEventAgreesWithReceive | src/client.rs:517-538 | `check_if_event` accepts exactly the frames `ws_receive` delivers as events and converts transport errors the same way, but reports parse failures as unknown payloads |
| Client.FreshClientNumbersRequests | src/client.rs:41-42 | on a fresh client, `ping`, an area-registry listing and `call_service` are sent with ids 1, 0 and 2, and the counter ends at 3 |
| Client.SubscribeThenUnsubscribe | src/client.rs:390-443 | a fresh client that subscribes and unsubscribes with the returned id succeeds twice and ends with an empty table |
| Client.RejectedHandshake | src/client.rs:59-83 | `auth_required` followed by `auth_invalid` fails with the gateway's message after sending exactly one `auth` command |
| WsConn.WithId | src/wsconn.rs:110-191 | overwriting the id of a command sets its id; `Close` and `AuthInit`, which have none, are unchanged |
| WsConn.WithIdRestores | src/wsconn.rs:110-191 | overwriting the id changes nothing else: putting the old id back restores the command |
| WsConn.Encode | src/wsconn.rs:101-197 | `AuthInit` is written unchanged, every other command carries the allocated id, and `GetPanels` is written as `GetServices` |
| WsConn.SendStep | src/wsconn.rs:94-197 | one command: `Close` ends the loop (`Ok`, or `ConnectionClosed` if the write fails); other commands advance the counter when stamped, and a failed write ends the loop with the owned conversion |
| WsConn.SendOne | src/wsconn.rs:94-197 | one arm of the loop's `match`, against the shared counter: it takes an id only for stamped commands, and writes, stops and leaves the counter exactly as `SendStep` says |
| WsConn.RunSender | src/wsconn.rs:92-201 | the loop over a queue writes at most one frame per item, and only a stop leaves items unread |
| WsConn.SenderLoop | src/wsconn.rs:84-205 | the imperative loop, advancing the shared counter, writes, consumes, stops and leaves the counter exactly as `RunSender` says |
| WsConn.StampedIdsConsecutive | src/wsconn.rs:110-191 | away from the wrap-around, the stamped ids are consecutive from the counter's starting value |
| WsConn.FreshSenderIdsCountFromOne | src/wsconn.rs:48 | from the counter's initial 1, stamped ids are 1, 2, 3, ... strictly increasing in write order |
| WsConn.CloseEndsTheLoop | src/wsconn.rs:95-100 | a `Close` in the queue stops the loop no later than that item, so nothing after it is read or written |
| WsConn.CleanStopWritesClose | src/wsconn.rs:95-100 | the loop ends with `Ok(())` only after consuming a `Close` and writing the close frame last |
| WsConn.ClosedChannelKeepsRunning | src/wsconn.rs:199 | a closed command channel (`None`) does not stop the loop |
| WsConn.AuthInitSentUnchanged | src/wsconn.rs:101-109 | `AuthInit` is written unchanged and leaves the counter where it was |
| WsConn.FailedWriteStopsTheLoop | src/wsconn.rs:96-108 | the loop ends in an error only on a failed write of the last item consumed, with `ConnectionClosed` for a close frame and the owned conversion otherwise |
| WsConn.NoFailedWriteNoError | src/wsconn.rs:96-108 | when no write fails, the loop either keeps running or ends with `Ok(())` |
| WsConn.SentInQueueOrder | src/wsconn.rs:92-201 | apart from ids, the frames written are a prefix of the queued commands in queue order, and all of them while the loop runs |
| WsConn.RouteItem | src/wsconn.rs:216-253 | an event goes to the listener registered under its id, or halts the loop when there is none; other responses are forwarded unchanged, parse failures as `UnknownPayloadReceived` and transport errors by the borrowed conversion; non-text frames and the stream's end are skipped |
| WsConn.RunReceiver | src/wsconn.rs:215-255 | the loop over a stream reads everything unless it halts |
| WsConn.ReceiverLoop | src/wsconn.rs:208-258 | the imperative loop forwards, invokes, consumes and halts exactly as `RunReceiver` says |
| WsConn.NoEventReachesTheClient | src/wsconn.rs:228-240 | no event is ever forwarded to the client queue |
| WsConn.ListenersMatchEventIds | src/wsconn.rs:229-236 | every listener call goes to the listener registered under the event's id |
| WsConn.HaltsAtFirstUnrouted | src/wsconn.rs:229-237 | when the loop halts, the last item it consumed is an event with no listener and every item before it was routed |
| WsConn.RunningMeansAllRouted | src/wsconn.rs:215-255 | a loop that has not halted has routed every item of the stream |
| WsConn.HaltsOnlyOnUnroutedEvent | src/wsconn.rs:237 | the loop halts if and only if some event has no listener, and it halts at the first such event |
| WsConn.ReceiverPreservesArrivalOrder | src/wsconn.rs:215-255 | a stream that does not halt the loop, followed by more items, has its forwards and listener calls come first, in arrival order |
| WsConn.StreamEndKeepsRunning | src/wsconn.rs:253 | the end of the stream (`None`) is skipped and the loop goes on reading |

## Left out

- The `use-async-std` branches (src/client.rs:457-461 and 490-510) and the `RecvError` variant are not modelled. Only the tokio build is.
- `WsConn::connect` (src/wsconn.rs:38-72), src/runtime.rs and the example program are not modelled. They open the network connection, create the channels and spawn the loops.
- The two loops run concurrently with the client in the source. Here each is a sequential method over a finite queue.
  - A drained queue ends the method where the source would wait for more.
  - Atomic memory ordering and the `Mutex` around `event_listeners` are not modelled.
- JSON parsing and decoding, `to_tungstenite_message` and the serde data shapes of src/types are not part of this model. Parsing and decoding are parameters, and an outbound frame is represented by the command it encodes. The types module that defines `Command` and `Response` is not part of this model. The `Protocol` module declares only the fields the core reads.
- `WsError` keeps only the variants the conversions tell apart: `ConnectionClosed`, `AlreadyClosed`, and every other error as its display text. `SerdeError` is its display text.
- Panics are preconditions and are not modelled as behaviour:
  - the `expect` on `get_last_seq` (src/client.rs:89): the counter is not 0;
  - the `expect` on a successful result's payload (src/client.rs:125): `PayloadPresent`;
  - the `unwrap` on the reply in subscribe and unsubscribe (src/client.rs:401, 430): the exchange succeeds.
- Client.HassClient.SubscribeEvent: its precondition requires an open channel and a good reply, because the source panics otherwise.
- Client.HassClient.UnsubscribeEvent: its precondition requires an open channel and a good reply, because the source panics otherwise.
- The receiver loop's `to_client.send(...).unwrap()` (src/wsconn.rs:240, 242) is assumed to succeed: the client queue is unbounded here. The listener closures are opaque handler numbers, and their calls are recorded in order.
- The text of `SendError` is the tokio channel's "channel closed". The display text of a transport or JSON error is its `description` field.
- `Display` for `HassEvent` and the other types is not modelled. It only formats text.
