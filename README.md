# MQTT facade: a verified model

This project models the logic in the thin C# layer over the MQTTnet protocol engine. The layer has a client (`MqttClient.cs`) and an embedded broker (`MqttServer.cs`).

The library's own work is reduced to outcomes passed in as parameters. That work is connecting, publishing, subscribing and running the broker. A `connected` flag and a log of the requests handed to the engine stand in for the engine's state. What remains is modelled and proved:

- **Client configuration** (`Client.MqttClientConfig`, a class):
  - the validating `ServerIp` and `Port` setters;
  - the lazily generated and cached `ClientId`;
  - the defaults: `ReconneTime` 5 s, and 127.0.0.1:1883 for the parameterless constructor.
- **Client operations** (`Client.MqttClient`, a class):
  - `Init` and its error routing;
  - `Subscribe` and `Unsubscribe`: the blank-topic test comes first, the connection test second;
  - the reconnect guard `ReConnected`, which registers its handler ten times, and that handler's body;
  - `PublishAsync`, which drives a `MessageBuilder` step by step: trimmed topic, retain always set, then the QoS table;
  - `ReciveMsg`, which translates an inbound message into an `MqttClientReciveMsg`.
- **QoS table** (`Client.EngineQos`): `Qos_0` maps to at-least-once, `Qos_1` to at-most-once, and any other value to exactly-once. This swaps the protocol's usual numbering; the model keeps the source's table.
- **Server admission** (`Server.MqttServer.ValidateConnection`, proved against `Server.Admission`). The source's behaviour is kept as written:
  - `First(...) is null` throws when nothing matches, so neither reason code is ever assigned;
  - the password is never compared, since both operands of the `||` test `Usernames`;
  - the two checks run one after the other with no early return.
- **Server options**: `Init` installs the delegate only when a `ConnectionValidator` is configured. It overrides the endpoint port exactly when the validator's port is positive, and routes `Init` errors through `ExceptionCallBack`.
- **Server events** (`Server.Translate`): five engine events become `MqttServerRecive` records, each with its fixed-format summary. A record is delivered only to a callback that is set.

The data classes of the source are Dafny datatypes with the same fields:
- `Client.MqttClientReciveMsg` is `MqttClientReciveMsg` (MqttClient.cs:390-412);
- `Server.MqttServerConfig` is `MqttServerConfig` (MqttServer.cs:307-337), each callback reduced to whether it is set;
- `Server.MqttServerConnValidator` is `MqttServerConnValidator` (MqttServer.cs:339-360), each list element possibly null;
- `Server.MqttServerRecive` is `MqttServerRecive` (MqttServer.cs:362-388).

The one configuration object the client mutates, `MqttClientConfig`, is a class.

`Text.Trim` models .NET `String.Trim()`, whose white-space set is that of `Char.IsWhiteSpace`. Topic and address checks go through it.

## Model

| member | source | states |
|---|---|---|
| Text.SkipWhiteSpace | MqttClient.cs:159 | scanning forward, the index reached is the first that is not white space (or the end), and everything passed over is white space |
| Text.EndOfText | MqttClient.cs:159 | scanning backward, the index reached follows the last character that is not white space (or is the lower bound), and everything passed over is white space |
| Text.TrimStart | MqttClient.cs:159 | the front half of `Trim`: the result is the longest suffix not starting with white space; everything dropped is white space |
| Text.TrimEnd | MqttClient.cs:159 | the back half of `Trim`: the result is the longest prefix not ending with white space; everything dropped is white space |
| Text.TrimIsTrimEndThenTrimStart | MqttClient.cs:159 | `Trim` cuts the two ends exactly as cutting the trailing white space and then the leading white space does |
| Text.IsBlank | MqttClient.cs:330 | `string.IsNullOrEmpty(s.Trim())` holds exactly when every character of `s` is white space |
| Text.Trim | MqttClient.cs:330 | `Trim` neither starts nor ends with white space, and it is empty exactly when the input is all white space |
| Text.TrimIsInfix | MqttClient.cs:233 | the input is white space, then the trimmed text, then white space |
| Text.TrimIdempotent | MqttClient.cs:233 | trimming an already trimmed topic changes nothing |
| Client.EngineQos | MqttClient.cs:241-252 | `Qos_0` gives AtLeastOnce, `Qos_1` gives AtMostOnce, and any other value gives ExactlyOnce (each direction of each case) |
| Client.EngineQosIsBijective | MqttClient.cs:241-252 | on the three named members the table is a bijection onto the engine levels |
| Client.EngineQosSwapsZeroAndOne | MqttClient.cs:241-252 | the table differs from the protocol's numbering exactly on `Qos_0` and `Qos_1`, which it swaps |
| Client.SubscriptionTopic | MqttClient.cs:159-168 | a blank topic fails whatever the connection state; then a missing engine, then a disconnected client fail; success gives the trimmed, non-blank topic |
| Client.PublishedMessage | MqttClient.cs:233-253 | the message sent for a topic carries the topic trimmed as `String.Trim()` trims it, which is empty exactly when the topic is blank, the caller's payload, the level the QoS table gives and the retain flag |
| Client.PublishedMessageShape | MqttClient.cs:233-253 | every published message is retained, has a non-empty trimmed topic, the caller's payload and the table's QoS |
| Client.PublishSensorExample | MqttClient.cs:240-253 | publishing "/sensor/1" with `Qos_2` sends topic "/sensor/1", retained, ExactlyOnce |
| Client.ToReciveMsg | MqttClient.cs:142-149 | the record keeps topic, payload, QoS and retain of the inbound message; `Payload_UTF8` is the decoding of that payload |
| Client.ToReciveMsgInjective | MqttClient.cs:142-149 | two inbound messages give the same record exactly when they are equal |
| Client.MqttClientConfig.constructor | MqttClient.cs:319-388 | a fresh configuration has no address, port 0, no id, `ReconneTime` 5 and no callbacks |
| Client.MqttClientConfig.SetServerIp | MqttClient.cs:325-336 | a blank value raises and keeps the old address; any other value is stored untrimmed |
| Client.MqttClientConfig.SetPort | MqttClient.cs:341-352 | a value that is not positive raises and keeps the old port; any other value is stored |
| Client.MqttClientConfig.GetClientId | MqttClient.cs:369-373 | with nothing cached the fresh id is cached and returned; otherwise the cached id is returned |
| Client.MqttClientConfig.SetClientId | MqttClient.cs:374 | the setter stores the given id, possibly null |
| Client.ClientIdIsStable | MqttClient.cs:367-375 | two reads of `ClientId` return the same id, and an id set beforehand is the one read |
| Client.SetEndpoint | MqttClient.cs:40-44 | the object initialiser's `ServerIp` and `Port` assignments go through both setters, which accept a non-blank address and a positive port; no other setting changes |
| Client.DefaultConfig | MqttClient.cs:40-44 | the parameterless constructor's configuration is 127.0.0.1:1883 with no id, no credentials, `ReconneTime` 5 and no callbacks |
| Client.MqttClient.constructor | MqttClient.cs:17-29 | before `Init` there is no engine, no options, no connection, no reconnect registration and nothing logged |
| Client.Raised | MqttClient.cs:309 | an awaited engine call fails exactly when the engine fails, and then raises that engine error unchanged |
| Client.MqttClient.RouteError | MqttClient.cs:121-128 | with no `Exception` callback the error is rethrown; otherwise it is passed to the callback and the call completes |
| Client.MqttClient.Init | MqttClient.cs:104-129 | the engine, the options (address, port, credentials, resolved id) and the message handler are set up; a library error is routed |
| Client.MqttClient.NewDefault | MqttClient.cs:38-46 | the parameterless constructor uses 127.0.0.1 and 1883 with no credentials and no callbacks, then runs `Init`: the new client has sent nothing, registered nothing and delivered nothing, and a successful `Init` caches the fresh id |
| Client.MqttClient.New | MqttClient.cs:65-74 | the configuring constructor runs `Init` on the host's configuration; the new client has sent nothing, registered nothing and delivered nothing; `Init` caches the preset id or else the fresh one, and a failing `Init` leaves the id as it was; a successful `Init` routes no error |
| Client.MqttClient.ReciveMsg | MqttClient.cs:138-151 | exactly one record is delivered when `ReciveMsgCallback` is set, none otherwise |
| Client.MqttClient.Start | MqttClient.cs:308-309 | a connect request carrying the options `Init` stored (address, port, credentials, cached id) is handed to the engine; its failure propagates; success connects and leaves no disconnect event pending, while a failed connect is a disconnect event for the handlers already registered |
| Client.MqttClient.Stop | MqttClient.cs:315-316 | a disconnect request is handed to the engine; its failure propagates; disconnecting a connected client is a disconnect event for the handlers already registered |
| Client.MqttClient.ConnectionLost | MqttClient.cs:203 | the engine losing a connected client's connection leaves it disconnected, with a disconnect event pending exactly when handlers were registered before the loss |
| Client.MqttClient.Subscribe | MqttClient.cs:157-170 | failures of `SubscriptionTopic` are raised with nothing sent; otherwise the trimmed topic is sent as a filter |
| Client.MqttClient.Unsubscribe | MqttClient.cs:176-189 | the same checks; otherwise the trimmed topic is sent for unsubscription |
| Client.MqttClient.ReConnected | MqttClient.cs:194-221 | a connected client is left unchanged; otherwise exactly ten handler registrations are made |
| Client.MqttClient.ReconnectHandler | MqttClient.cs:203-219 | the handler runs only for a pending disconnect event; it hands the engine a connect request carrying the options `Init` stored; a failure is routed like any other error and leaves the event pending |
| Client.MqttClient.PublishAsync | MqttClient.cs:231-267 | `qos` defaults to `Qos_0`; a blank topic raises before `ReConnected`; otherwise the message sent has the trimmed topic, retain set and the table's QoS; a send failure is routed |
| Client.MqttClient.ConfigureBuilder | MqttClient.cs:240-253 | the builder ends with the given topic, retain set and the level the QoS table gives, its payload untouched, and builds exactly that message |
| Client.MqttClient.Publish | MqttClient.cs:298-300 | the byte payload goes through `PublishAsync`, with `qos` defaulting to `Qos_0`: the same blank-topic, missing-engine, reconnect-registration and failure-routing outcomes, and the message sent carries that payload |
| Client.MqttClient.PublishText | MqttClient.cs:273-277 | the same outcomes as `Publish` for the encoded text, with `qos` defaulting to `Qos_0` |
| Client.MqttClient.PublishWithDefaultQos | MqttClient.cs:231 | a publish that leaves the QoS out sends at-least-once, because the default `Qos_0` goes through the inverted table |
| Client.StartThenPublish | MqttClient.cs:231-309 | a new client with an address and a port that starts and publishes, both calls succeeding, has handed the engine exactly a connect request carrying its own address, port, credentials and resolved id, and then the published message, and has made no reconnect registration and routed no error |
| Client.LostThenReconnected | MqttClient.cs:194-221 | a disconnected client registers ten handlers, connects, then loses the connection; one successful handler run answers the loss and reconnects it, so the engine has seen two more connect requests, both carrying the unchanged stored options |
| Server.ClientIdsEnforced | MqttServer.cs:128-129 | the client-id list is checked only when it is present and non-empty; a missing or empty list admits every id |
| Server.CredentialsEnforced | MqttServer.cs:137-140 | credentials are checked only when both the username and the password lists are present and non-empty |
| Server.FirstException | MqttServer.cs:131 | when `First` does not return, it raises `NullReferenceException` exactly when it reached a null element, and `InvalidOperationException` otherwise |
| Server.FindFirst | MqttServer.cs:131 | `First` returns the first matching element, or hits a null element first, or finds no match |
| Server.FindFirstFindsMembers | MqttServer.cs:131 | in a list without nulls, `First` succeeds exactly for members |
| Server.Admission | MqttServer.cs:128-147 | the delegate never changes the reason code; it completes or throws from `First` |
| Server.CompletedMeansMatched | MqttServer.cs:128-147 | an admitted attempt matched every enforced dimension |
| Server.CompletedIffMatched | MqttServer.cs:128-147 | with lists free of nulls, admission holds exactly when every enforced dimension matches |
| Server.UnknownClientIdThrows | MqttServer.cs:128-135 | a client id missing from a non-empty list always makes the delegate throw |
| Server.UnknownUsernameThrows | MqttServer.cs:137-146 | a username missing from an enforced list always makes the delegate throw |
| Server.PasswordNeverConsulted | MqttServer.cs:142-143 | changing the attempted password never changes the outcome |
| Server.CredentialCheckFollowsClientIdMatch | MqttServer.cs:128-147 | after a matching client id the outcome is that of the credential check alone |
| Server.UnenforcedAdmitsAll | MqttServer.cs:128-140 | with neither dimension enforced every attempt completes with its reason code untouched |
| Server.CallbackFor | MqttServer.cs:218-302 | each of the five kinds of event goes to its own callback, and each callback receives exactly one kind |
| Server.HasCallback | MqttServer.cs:220 | a notification is sent only if that callback's own field is set (the `!= null` test of each handler), and no other field is consulted |
| Server.Tagged | MqttServer.cs:226 | `客户端[<id>]` opens with `客户端[`, then the client id, then `]`, so the id can be read back from it |
| Server.Translate | MqttServer.cs:218-302 | one notification for the event's own callback exactly when that callback is set; its record is the one `Record` builds for that event, carrying the event's client, topic, payload text, QoS and retain as each handler copies them |
| Server.Record | MqttServer.cs:222-299 | each handler's record names the event's client; each kind of event gets its own summary (subscription, unsubscription, message, connection, disconnection); only message records carry a payload, QoS and retain of their own, the others keep `AtMostOnce` and `false`; only connection and disconnection records lack a topic |
| Server.SubscribedSummary | MqttServer.cs:226 | the subscription summary is the client's tag, then `已订阅主题：`, then the filter's topic |
| Server.UnsubscribedSummary | MqttServer.cs:243 | the unsubscription summary is the client's tag, then `已取消订阅主题：`, then the filter |
| Server.SubscribedAndUnsubscribedSummariesDiffer | MqttServer.cs:226-243 | one client's subscription summary never equals its unsubscription summary |
| Protocol.QosName | MqttServer.cs:266 | the QoS level prints as its member name: `AtMost`, `AtLeast` or `Exactly` followed by `Once` |
| Protocol.QosNameInjective | MqttServer.cs:266 | two levels print the same exactly when they are the same level |
| Protocol.BoolText | MqttServer.cs:267 | the retain flag prints as `True` exactly when it is set and as `False` exactly when it is not |
| Server.MessageSummary | MqttServer.cs:265-267 | the message summary opens with the client's tag and ends with the retain flag, `True` or `False`, in brackets |
| Server.MessageSummaryLayout | MqttServer.cs:265-267 | after the tag come, in order, the topic, the payload text, the QoS name and the retain flag, each after its own label and in brackets |
| Server.MessageSummaryShowsRetain | MqttServer.cs:267 | two message summaries that are equal carry the same retain flag, whatever their other fields |
| Server.ConnectedSummary | MqttServer.cs:283 | the connection summary is the client's tag followed by `已连接` |
| Server.DisconnectedSummary | MqttServer.cs:299 | the disconnection summary is the client's tag followed by `已断开连接` |
| Server.ConnectedSummaryInjective | MqttServer.cs:283 | the connect summary determines the client id |
| Server.DisconnectedSummaryInjective | MqttServer.cs:299 | the disconnect summary determines the client id |
| Server.ConnectedAndDisconnectedSummariesDiffer | MqttServer.cs:283-299 | no connect summary equals a disconnect summary |
| Server.ConnectionValidatorContext.constructor | MqttServer.cs:126 | the context carries the attempt and starts with reason code `Success` |
| Server.MqttServer.constructor | MqttServer.cs:18-26 | before `Init` there are no options, no engine and nothing logged |
| Server.MqttServer.RouteError | MqttServer.cs:187-194 | with no `ExceptionCallBack` the error is rethrown; otherwise it is passed to the callback and `Init` completes |
| Server.MqttServer.Init | MqttServer.cs:114-196 | without a validator the options are the defaults; with one the delegate is installed and the port overridden exactly when it is positive; engine errors are routed |
| Server.MqttServer.New | MqttServer.cs:87-96 | the configuring constructor runs `Init`, and the new server has delivered nothing; the endpoint port is the validator's when that is positive and 1883 otherwise, and a fault leaves no engine; a successful `Init` routes no error |
| Server.MqttServer.ValidateConnection | MqttServer.cs:126-149 | the delegate's outcome is exactly that of `Admission`, and the context's reason code is never changed, whether the delegate completes or throws |
| Server.DeliveredSummariesTellKindsApart | MqttServer.cs:218-302 | the delivered records of a connection and a disconnection, or of one client's subscription and unsubscription, never share a summary |
| Server.MqttServer.Dispatch | MqttServer.cs:218-302 | each engine event appends at most the one notification `Translate` gives |

## Left out

- The engine operations are not modelled: connect, disconnect, publish, subscribe, unsubscribe, broker start/stop and the options builders. Each facade operation takes the engine's outcome as a parameter and records the request in `engineOps`.
- `MqttServer.Start` and `MqttServer.Stop` only forward to the broker engine, so they are not modelled.
- `Task.Delay`, `async void`, the `.Wait()` in the server constructor and concurrent event delivery are not modelled. The reconnect delay is not modelled either.
  - An exception leaving an `async void` method (`Subscribe`, `Unsubscribe`, three `Publish` overloads) is modelled as a failed outcome returned to the caller.
  - In .NET that exception is actually posted to the synchronisation context.
- `ReconnectHandler`: the effect of `ReconneTime` on the delay is not modelled. The handler always goes on to reconnect. In the source (MqttClient.cs:207) a `ReconneTime` of -0.002 s or less, or NaN, or one too large for `Task.Delay` (past `TimeSpan.MaxValue` or above its maximum timeout), makes `Task.Delay(TimeSpan.FromSeconds(...))` throw inside the `try`, so the error is routed and `ConnectAsync` never runs. A value of -0.001 becomes the -1 ms infinite timeout, so the handler waits forever. A value such as -0.0005 becomes 0 ms. `ReconneTime` is kept as a `real` for its default only.
- `Client.MqttClient.ReconnectHandler`: one `disconnectPending` flag stands for the disconnect events the registered handlers have yet to answer. A handler may run only while one is pending. Each run is one handler answering it, and the model does not say how many of the registrations run for one event.
  - A handler registered after an event runs only for a later one. The model keeps that when no handler existed at the event, because then nothing is pending. When some handlers existed, it counts them together with those registered while the event is pending.
  - A normal `Stop` of a connected client is a disconnect event as well. So the source's handler also reconnects after `Stop`, and the model keeps that.
- What `UseDisconnectedHandler` does with several registrations (replace or add) is library behaviour. `ReConnected` only counts its registrations.
- `Guid.NewGuid()` becomes the `newGuid` argument. UTF-8 decoding and encoding become function arguments (`utf8`, `encode`).
- The `Stream` and `IEnumerable<byte>` overloads of `Publish` are not modelled. They differ from the `byte[]` overload only in the library's payload conversion.
- The autoStart flag of both configuring constructors is not modelled (a `Start` after `Init`). The static `Instance` factories are not modelled either; they only call the constructors.
- The parameterless `MqttServer()` is not modelled, because it runs `Init` with a null configuration. The model's server configuration is always present.
- Null topics, addresses and payloads are not modelled. A null topic or address raises `NullReferenceException` in `Trim`. A null payload makes `Encoding.UTF8.GetString` raise `ArgumentNullException` (MqttClient.cs:145, MqttServer.cs:254). On the server that happens before the callback is consulted.
- A null client id in a server event is not modelled. The source copies it into the record, and the summary shows it as an empty string.
- Client `Init` assumes a library failure happens before any field is assigned. So a failing `Init` leaves the id uncached and the options unset.
- Server `Init` assumes a library failure happens after `_options` is assigned, where `CreateMqttServer` runs.
- The validator delegate reads `ConnectionValidator` from a configuration that does not change after construction. A host that replaced it later is not modelled.
