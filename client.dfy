/** The client half of the facade (`MqttClient.cs`): the validated configuration object,
    topic checks, the publish path with its QoS table, the reconnect guard, error routing
    and the translation of inbound messages into `MqttClientReciveMsg` records. */
module Client {
  import opened Wrappers
  import opened Text
  import opened Protocol

  // ---------------------------------------------------------------------------
  // Exception messages raised by the client

  const EmptySubscribeTopicMessage := "订阅主题不能为空！"
  const NotConnectedMessage := "MQTT客户端尚未连接！请先启动连接"
  const EmptyPublishTopicMessage := "主题不能为空！"
  const BlankServerIpMessage := "ServerIp can't be null or empty!"
  const BadPortMessage := "Port can't below the zero!"

  /** Defaults of the parameterless constructor and of `ReconneTime`. */
  const DefaultServerIp := "127.0.0.1"
  const DefaultPort: int32 := 1883
  const DefaultReconneTime: real := 5.0

  /** How many times `ReConnected` registers its disconnect handler. */
  const ReconnectRegistrations: nat := 10

  /** An engine outcome as seen by a caller that lets engine failures propagate. */
  function Raised(o: Outcome<EngineError>): (r: Outcome<Exn>)
    ensures r.Pass? <==> o.Pass?
    ensures o.Fail? ==> r.error == Engine(o.error)
  {
    match o
    case Pass => Pass
    case Fail(e) => Fail(Engine(e))
  }

  // ---------------------------------------------------------------------------
  // QoS table

  /** `PublicQos`: a C# enum, so any 32-bit value can be passed; the named members
      are `Qos_0`, `Qos_1` and `Qos_2`. */
  newtype PublicQos = x: int | -0x8000_0000 <= x < 0x8000_0000

  const Qos0: PublicQos := 0
  const Qos1: PublicQos := 1
  const Qos2: PublicQos := 2

  /** The fixed table `PublishAsync` applies: `Qos_0` asks for at-least-once,
      `Qos_1` for at-most-once, and every other value for exactly-once. */
  function EngineQos(q: PublicQos): (level: QosLevel)
    ensures level == AtLeastOnce <==> q == Qos0
    ensures level == AtMostOnce <==> q == Qos1
    ensures level == ExactlyOnce <==> q != Qos0 && q != Qos1
  {
    if q == Qos0 then AtLeastOnce
    else if q == Qos1 then AtMostOnce
    else ExactlyOnce
  }

  /** The named member the table sends to each engine level. */
  function TableEntryFor(level: QosLevel): (q: PublicQos)
    ensures q == Qos0 || q == Qos1 || q == Qos2
  {
    match level
    case AtLeastOnce => Qos0
    case AtMostOnce => Qos1
    case ExactlyOnce => Qos2
  }

  /** On the three named members the table is a bijection onto the engine levels. */
  lemma EngineQosIsBijective(q: PublicQos, level: QosLevel)
    ensures EngineQos(TableEntryFor(level)) == level
    ensures q == Qos0 || q == Qos1 || q == Qos2 ==> TableEntryFor(EngineQos(q)) == q
  {
  }

  /** The numbering the protocol itself uses: level n is the n-th guarantee. */
  function ConventionalQos(q: PublicQos): QosLevel {
    if q == Qos0 then AtMostOnce
    else if q == Qos1 then AtLeastOnce
    else ExactlyOnce
  }

  /** The table departs from the protocol's numbering exactly on `Qos_0` and `Qos_1`,
      whose levels it swaps. */
  lemma EngineQosSwapsZeroAndOne(q: PublicQos)
    ensures EngineQos(q) != ConventionalQos(q) <==> q == Qos0 || q == Qos1
    ensures q == Qos0 || q == Qos1 ==> EngineQos(q) == ConventionalQos(Qos0 + Qos1 - q)
  {
  }

  // ---------------------------------------------------------------------------
  // Topic checks

  /** The subscription checks of `Subscribe` and `Unsubscribe`, in source order: a blank
      topic fails first, whatever the connection; then the engine reference is used (null
      before a successful `Init`); then a disconnected client fails.  On success the
      topic handed to the engine is the trimmed one, which is neither blank nor changed
      by trimming again. */
  function SubscriptionTopic(topicName: string, engineCreated: bool, connected: bool): (r: Result<string, Exn>)
    ensures IsBlank(topicName) ==> r == Failure(Exception(EmptySubscribeTopicMessage))
    ensures !IsBlank(topicName) && !engineCreated ==> r == Failure(NullReference)
    ensures !IsBlank(topicName) && engineCreated && !connected ==> r == Failure(Exception(NotConnectedMessage))
    ensures r.Success? <==> !IsBlank(topicName) && engineCreated && connected
    ensures r.Success? ==> r.value == Trim(topicName) && !IsBlank(r.value) && Trim(r.value) == r.value
  {
    var topic := Trim(topicName);
    TrimIdempotent(topicName);
    if topic == [] then Failure(Exception(EmptySubscribeTopicMessage))
    else if !engineCreated then Failure(NullReference)
    else if !connected then Failure(Exception(NotConnectedMessage))
    else Success(topic)
  }

  /** The message `PublishAsync` hands to the engine for a topic that is not blank:
      the trimmed topic, the caller's payload, the level the QoS table gives, and the
      retain flag set. */
  function PublishedMessage(topicName: string, payload: Bytes, qos: PublicQos): (m: ApplicationMessage)
    ensures m.retain && m.payload == payload && m.qos == EngineQos(qos)
    ensures m.topic == Trim(topicName)
    ensures |m.topic| <= |topicName| && (m.topic == [] <==> IsBlank(topicName))
    ensures m.topic == [] || (!IsWhiteSpace(m.topic[0]) && !IsWhiteSpace(m.topic[|m.topic| - 1]))
  {
    ApplicationMessage(Trim(topicName), payload, EngineQos(qos), true)
  }

  /** Every published message is retained, carries the caller's payload, a topic that is
      already trimmed and non-empty, and the level of the QoS table. */
  lemma PublishedMessageShape(topicName: string, payload: Bytes, qos: PublicQos)
    requires !IsBlank(topicName)
    ensures var m := PublishedMessage(topicName, payload, qos);
            m.retain && m.payload == payload && m.qos == EngineQos(qos)
            && m.topic != [] && Trim(m.topic) == m.topic
            && m.topic == PublishedMessage(m.topic, payload, qos).topic
  {
    TrimIdempotent(topicName);
  }

  /** Publishing "/sensor/1" with `Qos_2` sends exactly that topic, retained, at
      exactly-once. */
  lemma PublishSensorExample(payload: Bytes)
    ensures PublishedMessage("/sensor/1", payload, Qos2) == ApplicationMessage("/sensor/1", payload, ExactlyOnce, true)
  {
    SensorTopicIsTrimmed();
  }

  lemma SensorTopicIsTrimmed()
    ensures Trim("/sensor/1") == "/sensor/1"
  {
    PlainTextIsTrimmed("/sensor/1");
  }

  /** The default address passes the `ServerIp` setter. */
  lemma DefaultServerIpIsNotBlank()
    ensures !IsBlank(DefaultServerIp)
  {
    assert !IsWhiteSpace(DefaultServerIp[0]);
  }

  // ---------------------------------------------------------------------------
  // Inbound messages

  /** `MqttClientReciveMsg`. */
  datatype MqttClientReciveMsg = MqttClientReciveMsg(topic: string, payloadUtf8: string, payload: Bytes, qos: QosLevel, retain: bool)

  /** The engine message a record describes. */
  function RecordedMessage(r: MqttClientReciveMsg): ApplicationMessage {
    ApplicationMessage(r.topic, r.payload, r.qos, r.retain)
  }

  /** The record `ReciveMsg` builds: it loses nothing of the inbound message, and its
      text payload is the UTF-8 decoding of its byte payload. */
  function ToReciveMsg(m: ApplicationMessage, utf8: Bytes -> string): (r: MqttClientReciveMsg)
    ensures RecordedMessage(r) == m
    ensures r.payloadUtf8 == utf8(r.payload)
  {
    MqttClientReciveMsg(m.topic, utf8(m.payload), m.payload, m.qos, m.retain)
  }

  /** Two records built from the same inbound message are equal, and different
      messages give different records. */
  lemma ToReciveMsgInjective(m1: ApplicationMessage, m2: ApplicationMessage, utf8: Bytes -> string)
    ensures ToReciveMsg(m1, utf8) == ToReciveMsg(m2, utf8) <==> m1 == m2
  {
    if ToReciveMsg(m1, utf8) == ToReciveMsg(m2, utf8) {
      assert RecordedMessage(ToReciveMsg(m1, utf8)) == RecordedMessage(ToReciveMsg(m2, utf8));
    }
  }

  // ---------------------------------------------------------------------------
  // Configuration

  /** `MqttClientConfig`.  The callbacks are represented by whether they are set. */
  class MqttClientConfig {
    var serverIp: Option<string>     // `_serverIp`; null until set
    var port: int32                  // `_port`; 0 until set
    var userName: Option<string>
    var password: Option<string>
    var clientId: Option<string>     // `_clientId`; the cache behind `ClientId`
    var reconneTime: real            // seconds between reconnect attempts
    var hasExceptionCallback: bool   // `Exception != null`
    var hasReciveMsgCallback: bool   // `ReciveMsgCallback != null`

    /** What the setters allow: an address, once set, is not blank; the port is never
        negative (0 until set, positive after). */
    predicate Valid()
      reads this
    {
      (serverIp.Some? ==> !AllWhiteSpace(serverIp.value)) && port >= 0
    }

    constructor ()
      ensures Valid()
      ensures serverIp == None && port == 0 && userName == None && password == None && clientId == None
      ensures reconneTime == DefaultReconneTime && !hasExceptionCallback && !hasReciveMsgCallback
    {
      serverIp, port, userName, password, clientId := None, 0, None, None, None;
      reconneTime := DefaultReconneTime;
      hasExceptionCallback, hasReciveMsgCallback := false, false;
    }

    /** The `ServerIp` setter: a blank value raises and leaves the old address; any
        other value is stored as given, untrimmed. */
    method SetServerIp(value: string) returns (r: Outcome<Exn>)
      modifies this`serverIp
      ensures IsBlank(value) ==> r == Fail(ArgumentException(BlankServerIpMessage)) && serverIp == old(serverIp)
      ensures !IsBlank(value) ==> r == Pass && serverIp == Some(value)
      ensures old(Valid()) ==> Valid()
    {
      if Trim(value) == [] {
        return Fail(ArgumentException(BlankServerIpMessage));
      }
      serverIp := Some(value);
      r := Pass;
    }

    /** The `Port` setter: a value that is not positive raises and leaves the old port;
        any other value is stored. */
    method SetPort(value: int32) returns (r: Outcome<Exn>)
      modifies this`port
      ensures value <= 0 ==> r == Fail(ArgumentException(BadPortMessage)) && port == old(port)
      ensures value > 0 ==> r == Pass && port == value
      ensures old(Valid()) ==> Valid()
    {
      if value <= 0 {
        return Fail(ArgumentException(BadPortMessage));
      }
      port := value;
      r := Pass;
    }

    /** The `ClientId` getter: with nothing cached it caches the fresh id `newGuid`
        (the text of `Guid.NewGuid()`); it returns the cached id. */
    method GetClientId(newGuid: string) returns (id: string)
      modifies this`clientId
      ensures old(clientId).Some? ==> id == old(clientId).value
      ensures old(clientId).None? ==> id == newGuid
      ensures clientId == Some(id)
    {
      if clientId.None? {
        clientId := Some(newGuid);
      }
      id := clientId.value;
    }

    /** The `ClientId` setter; setting null makes the next read generate a new id. */
    method SetClientId(value: Option<string>)
      modifies this`clientId
      ensures clientId == value
    {
      clientId := value;
    }
  }

  /** Once resolved, the client id is stable: two reads agree whatever fresh ids the
      generator offers, and an id set explicitly is the one read back. */
  method ClientIdIsStable(config: MqttClientConfig, guid1: string, guid2: string) returns (first: string, second: string)
    modifies config`clientId
    ensures first == second
    ensures old(config.clientId).Some? ==> first == old(config.clientId).value
    ensures config.clientId == Some(first)
  {
    first := config.GetClientId(guid1);
    second := config.GetClientId(guid2);
  }

  /** An object initialiser setting `ServerIp` and `Port` to values both setters
      accept. */
  method SetEndpoint(config: MqttClientConfig, ip: string, port: int32)
    requires config.Valid() && !IsBlank(ip) && port > 0
    modifies config`serverIp, config`port
    ensures config.Valid() && config.serverIp == Some(ip) && config.port == port
    ensures config.userName == old(config.userName) && config.password == old(config.password)
    ensures config.clientId == old(config.clientId) && config.reconneTime == old(config.reconneTime)
    ensures config.hasExceptionCallback == old(config.hasExceptionCallback)
    ensures config.hasReciveMsgCallback == old(config.hasReciveMsgCallback)
  {
    var ok := config.SetServerIp(ip);
    ok := config.SetPort(port);
  }

  /** The configuration the parameterless constructor builds before `Init`. */
  method DefaultConfig() returns (config: MqttClientConfig)
    ensures fresh(config) && config.Valid()
    ensures config.serverIp == Some(DefaultServerIp) && config.port == DefaultPort && config.clientId == None
    ensures config.userName == None && config.password == None
    ensures config.reconneTime == DefaultReconneTime && !config.hasExceptionCallback && !config.hasReciveMsgCallback
  {
    config := new MqttClientConfig();
    DefaultServerIpIsNotBlank();
    SetEndpoint(config, DefaultServerIp, DefaultPort);
  }

  // ---------------------------------------------------------------------------
  // The client

  /** `MqttClient`.  The engine (`_mqttClient`) is reduced to whether it exists and
      whether it is connected, plus the log of requests handed to it. */
  class MqttClient {
    const config: MqttClientConfig
    const utf8: Bytes -> string        // `Encoding.UTF8.GetString`
    var engineCreated: bool            // `_mqttClient != null`
    var options: Option<ClientOptions> // `_options`
    var receiveHandlerRegistered: bool // `UseApplicationMessageReceivedHandler(ReciveMsg)` done
    var connected: bool                // `_mqttClient.IsConnected`
    var reconnectHandlers: nat         // `UseDisconnectedHandler` registrations made
    var engineOps: seq<EngineOp>       // requests handed to the engine, in order
    var errorsHandled: seq<Exn>        // exceptions passed to `config.Exception`
    var delivered: seq<MqttClientReciveMsg> // records passed to `config.ReciveMsgCallback`
    var disconnectPending: bool        // a disconnect event the registered handlers have yet to answer

    /** Engine, options and message handler appear together in `Init`; a connection
        or a reconnect registration needs an engine. */
    predicate Valid()
      reads this`engineCreated, this`options, this`receiveHandlerRegistered, this`connected
      reads this`reconnectHandlers, this`disconnectPending
    {
      && (engineCreated <==> options.Some?)
      && (receiveHandlerRegistered <==> engineCreated)
      && (connected ==> engineCreated)
      && (reconnectHandlers > 0 ==> engineCreated)
      && (disconnectPending ==> reconnectHandlers > 0 && !connected)
    }

    /** The field initialisers: nothing is created before `Init`. */
    constructor (config: MqttClientConfig, utf8: Bytes -> string)
      ensures Valid()
      ensures this.config == config && this.utf8 == utf8
      ensures !engineCreated && options == None && !connected && reconnectHandlers == 0
      ensures engineOps == [] && errorsHandled == [] && delivered == [] && !disconnectPending
    {
      this.config := config;
      this.utf8 := utf8;
      engineCreated, options, receiveHandlerRegistered, connected := false, None, false, false;
      reconnectHandlers, engineOps, errorsHandled, delivered := 0, [], [], [];
      disconnectPending := false;
    }

    /** The shared catch block: with no `Exception` callback the error is rethrown;
        otherwise it goes to the callback and the call completes normally. */
    method RouteError(e: Exn) returns (r: Outcome<Exn>)
      modifies this`errorsHandled
      ensures !config.hasExceptionCallback ==> r == Fail(e) && errorsHandled == old(errorsHandled)
      ensures config.hasExceptionCallback ==> r == Pass && errorsHandled == old(errorsHandled) + [e]
    {
      if !config.hasExceptionCallback {
        return Fail(e);
      }
      errorsHandled := errorsHandled + [e];
      r := Pass;
    }

    /** `Init`: creates the engine, builds the options (reading `ClientId`, which
        resolves and caches the id) and registers `ReciveMsg`.  `fault` is the error the
        library raises while creating the engine, if any; it is routed by `RouteError`. */
    method Init(newGuid: string, fault: Option<EngineError>) returns (r: Outcome<Exn>)
      requires Valid() && !engineCreated
      modifies this`engineCreated, this`options, this`receiveHandlerRegistered, this`errorsHandled, config`clientId
      ensures Valid()
      ensures fault.Some? ==> !engineCreated && config.clientId == old(config.clientId)
      ensures fault.Some? && !config.hasExceptionCallback ==> r == Fail(Engine(fault.value)) && errorsHandled == old(errorsHandled)
      ensures fault.Some? && config.hasExceptionCallback ==> r == Pass && errorsHandled == old(errorsHandled) + [Engine(fault.value)]
      ensures fault.None? ==> r == Pass && engineCreated && errorsHandled == old(errorsHandled)
      ensures fault.None? ==> config.clientId == Some(if old(config.clientId).Some? then old(config.clientId).value else newGuid)
      ensures fault.None? ==> options == Some(ClientOptions(config.serverIp, config.port, config.userName, config.password, config.clientId.value))
    {
      if fault.Some? {
        r := RouteError(Engine(fault.value));
        return;
      }
      engineCreated := true;
      var id := config.GetClientId(newGuid);
      options := Some(ClientOptions(config.serverIp, config.port, config.userName, config.password, id));
      receiveHandlerRegistered := true;
      r := Pass;
    }

    /** The parameterless constructor: address 127.0.0.1, port 1883, then `Init`. */
    static method NewDefault(utf8: Bytes -> string, newGuid: string, fault: Option<EngineError>) returns (c: MqttClient, r: Outcome<Exn>)
      ensures fresh(c) && fresh(c.config) && c.Valid() && c.config.Valid()
      ensures c.config.serverIp == Some(DefaultServerIp) && c.config.port == DefaultPort
      ensures c.config.reconneTime == DefaultReconneTime && !c.config.hasExceptionCallback && !c.config.hasReciveMsgCallback
      ensures c.config.userName == None && c.config.password == None
      ensures c.utf8 == utf8 && c.engineOps == [] && c.reconnectHandlers == 0 && c.delivered == [] && c.errorsHandled == []
      ensures !c.disconnectPending
      ensures fault.Some? ==> c.config.clientId == None
      ensures fault.None? ==> c.config.clientId == Some(newGuid)
      ensures fault.Some? ==> r == Fail(Engine(fault.value)) && !c.engineCreated
      ensures fault.None? ==> r == Pass && c.engineCreated && !c.connected
      ensures fault.None? ==> c.options == Some(ClientOptions(Some(DefaultServerIp), DefaultPort, None, None, newGuid))
    {
      var config := DefaultConfig();
      c := new MqttClient(config, utf8);
      r := c.Init(newGuid, fault);
    }

    /** The constructor that takes a configuration (already filled in by the host's
        action), then runs `Init`. */
    static method New(config: MqttClientConfig, utf8: Bytes -> string, newGuid: string, fault: Option<EngineError>) returns (c: MqttClient, r: Outcome<Exn>)
      modifies config`clientId
      ensures fresh(c) && c.config == config && c.Valid() && !c.connected
      ensures c.utf8 == utf8 && c.engineOps == [] && c.reconnectHandlers == 0 && c.delivered == [] && !c.disconnectPending
      ensures fault.Some? ==> !c.engineCreated
      ensures fault.Some? && !config.hasExceptionCallback ==> r == Fail(Engine(fault.value)) && c.errorsHandled == []
      ensures fault.Some? && config.hasExceptionCallback ==> r == Pass && c.errorsHandled == [Engine(fault.value)]
      ensures fault.Some? ==> config.clientId == old(config.clientId)
      ensures fault.None? ==> r == Pass && c.engineCreated && c.errorsHandled == []
      ensures fault.None? ==> config.clientId == Some(if old(config.clientId).Some? then old(config.clientId).value else newGuid)
      ensures fault.None? ==> c.options == Some(ClientOptions(config.serverIp, config.port, config.userName, config.password, config.clientId.value))
    {
      c := new MqttClient(config, utf8);
      r := c.Init(newGuid, fault);
    }

    /** `ReciveMsg`: with a `ReciveMsgCallback` set, one record describing the inbound
        message is delivered; otherwise nothing is. */
    method ReciveMsg(m: ApplicationMessage)
      requires Valid() && receiveHandlerRegistered
      modifies this`delivered
      ensures Valid()
      ensures config.hasReciveMsgCallback ==> delivered == old(delivered) + [ToReciveMsg(m, utf8)]
      ensures !config.hasReciveMsgCallback ==> delivered == old(delivered)
    {
      if config.hasReciveMsgCallback {
        delivered := delivered + [ToReciveMsg(m, utf8)];
      }
    }

    /** `Start`: asks the engine to connect; engine failures propagate.  A failed
        connect is a disconnect event for the handlers already registered. */
    method Start(outcome: Outcome<EngineError>) returns (r: Outcome<Exn>)
      requires Valid()
      modifies this`connected, this`engineOps, this`disconnectPending
      ensures Valid()
      ensures !engineCreated ==>
                r == Fail(NullReference) && connected == old(connected) && engineOps == old(engineOps)
                && disconnectPending == old(disconnectPending)
      ensures engineCreated ==> r == Raised(outcome) && engineOps == old(engineOps) + [ConnectRequest(options.value)]
      ensures engineCreated && outcome.Pass? ==> connected && !disconnectPending
      ensures engineCreated && outcome.Fail? ==>
                connected == old(connected) && disconnectPending == (reconnectHandlers > 0 && !connected)
    {
      if !engineCreated {
        return Fail(NullReference);
      }
      engineOps := engineOps + [ConnectRequest(options.value)];
      if outcome.Pass? {
        connected, disconnectPending := true, false;
      } else {
        disconnectPending := reconnectHandlers > 0 && !connected;
      }
      r := Raised(outcome);
    }

    /** `Stop`: asks the engine for a normal disconnect; engine failures propagate.
        Disconnecting a connected client is a disconnect event for the handlers already
        registered. */
    method Stop(outcome: Outcome<EngineError>) returns (r: Outcome<Exn>)
      requires Valid()
      modifies this`connected, this`engineOps, this`disconnectPending
      ensures Valid()
      ensures !engineCreated ==>
                r == Fail(NullReference) && connected == old(connected) && engineOps == old(engineOps)
                && disconnectPending == old(disconnectPending)
      ensures engineCreated ==> r == Raised(outcome) && engineOps == old(engineOps) + [DisconnectRequest]
      ensures engineCreated ==> connected == (old(connected) && outcome.Fail?)
      ensures engineCreated && outcome.Pass? && old(connected) ==> disconnectPending == (reconnectHandlers > 0)
      ensures engineCreated && !(outcome.Pass? && old(connected)) ==> disconnectPending == old(disconnectPending)
    {
      if !engineCreated {
        return Fail(NullReference);
      }
      engineOps := engineOps + [DisconnectRequest];
      if outcome.Pass? && connected {
        disconnectPending := reconnectHandlers > 0;
      }
      connected := connected && outcome.Fail?;
      r := Raised(outcome);
    }

    /** The engine losing the connection of a connected client: a disconnect event, which
        the handlers registered so far (if any) are now due to answer. */
    method ConnectionLost()
      requires Valid() && connected
      modifies this`connected, this`disconnectPending
      ensures Valid() && !connected
      ensures disconnectPending == (reconnectHandlers > 0)
    {
      connected := false;
      disconnectPending := reconnectHandlers > 0;
    }

    /** `Subscribe`: after the checks of `SubscriptionTopic` the trimmed topic is handed
        to the engine as a filter; engine failures propagate. */
    method Subscribe(topicName: string, outcome: Outcome<EngineError>) returns (r: Outcome<Exn>)
      requires Valid()
      modifies this`engineOps
      ensures Valid()
      ensures SubscriptionTopic(topicName, engineCreated, connected).Failure? ==>
                r == Fail(SubscriptionTopic(topicName, engineCreated, connected).error) && engineOps == old(engineOps)
      ensures SubscriptionTopic(topicName, engineCreated, connected).Success? ==>
                r == Raised(outcome) && engineOps == old(engineOps) + [SubscribeRequest(TopicFilter(Trim(topicName), AtMostOnce))]
    {
      var checked := SubscriptionTopic(topicName, engineCreated, connected);
      if checked.Failure? {
        return Fail(checked.error);
      }
      engineOps := engineOps + [SubscribeRequest(TopicFilter(checked.value, AtMostOnce))];
      r := Raised(outcome);
    }

    /** `Unsubscribe`: the same checks, then the trimmed topic goes to the engine. */
    method Unsubscribe(topicName: string, outcome: Outcome<EngineError>) returns (r: Outcome<Exn>)
      requires Valid()
      modifies this`engineOps
      ensures Valid()
      ensures SubscriptionTopic(topicName, engineCreated, connected).Failure? ==>
                r == Fail(SubscriptionTopic(topicName, engineCreated, connected).error) && engineOps == old(engineOps)
      ensures SubscriptionTopic(topicName, engineCreated, connected).Success? ==>
                r == Raised(outcome) && engineOps == old(engineOps) + [UnsubscribeRequest(Trim(topicName))]
    {
      var checked := SubscriptionTopic(topicName, engineCreated, connected);
      if checked.Failure? {
        return Fail(checked.error);
      }
      engineOps := engineOps + [UnsubscribeRequest(checked.value)];
      r := Raised(outcome);
    }

    /** `ReConnected`: nothing happens on a connected client; otherwise the disconnect
        handler is registered `ReconnectRegistrations` (ten) times. */
    method ReConnected() returns (r: Outcome<Exn>)
      requires Valid()
      modifies this`reconnectHandlers
      ensures Valid()
      ensures !engineCreated ==> r == Fail(NullReference) && reconnectHandlers == old(reconnectHandlers)
      ensures engineCreated && connected ==> r == Pass && reconnectHandlers == old(reconnectHandlers)
      ensures engineCreated && !connected ==> r == Pass && reconnectHandlers == old(reconnectHandlers) + ReconnectRegistrations
    {
      if !engineCreated {
        return Fail(NullReference);
      }
      if connected {
        return Pass;
      }
      for i := 0 to ReconnectRegistrations
        invariant reconnectHandlers == old(reconnectHandlers) + i
      {
        reconnectHandlers := reconnectHandlers + 1;
      }
      r := Pass;
    }

    /** The body of the registered disconnect handler, run by the engine for a disconnect
        event that came after its registration: after the delay (not modelled) it
        reconnects with the options `Init` stored; a failure is routed by `RouteError`, and the
        failed connect is another disconnect event for the handlers. */
    method ReconnectHandler(outcome: Outcome<EngineError>) returns (r: Outcome<Exn>)
      requires Valid() && disconnectPending
      modifies this`connected, this`engineOps, this`errorsHandled, this`disconnectPending
      ensures Valid()
      ensures engineOps == old(engineOps) + [ConnectRequest(options.value)]
      ensures connected == outcome.Pass? && disconnectPending == outcome.Fail?
      ensures outcome.Pass? ==> r == Pass && errorsHandled == old(errorsHandled)
      ensures outcome.Fail? && !config.hasExceptionCallback ==> r == Fail(Engine(outcome.error)) && errorsHandled == old(errorsHandled)
      ensures outcome.Fail? && config.hasExceptionCallback ==> r == Pass && errorsHandled == old(errorsHandled) + [Engine(outcome.error)]
    {
      engineOps := engineOps + [ConnectRequest(options.value)];
      connected, disconnectPending := outcome.Pass?, outcome.Fail?;
      if outcome.Fail? {
        r := RouteError(Engine(outcome.error));
      } else {
        r := Pass;
      }
    }

    /** The builder steps of `PublishAsync`: topic, retain flag, then the level the QoS
        table gives for `qos`; the result is the message the builder then builds. */
    static method ConfigureBuilder(builder: MessageBuilder, topic: string, qos: PublicQos) returns (message: ApplicationMessage)
      modifies builder
      ensures builder.topic == Some(topic) && builder.retain && builder.qos == EngineQos(qos)
      ensures builder.payload == old(builder.payload)
      ensures message == ApplicationMessage(topic, builder.payload, EngineQos(qos), true)
    {
      builder.WithTopic(topic);
      builder.WithRetainFlag();
      if qos == Qos0 {
        builder.WithAtLeastOnceQoS();
      } else if qos == Qos1 {
        builder.WithAtMostOnceQoS();
      } else {
        builder.WithExactlyOnceQoS();
      }
      message := builder.Build();
    }

    /** `PublishAsync`: a blank topic raises before anything else happens; otherwise
        `ReConnected` runs, the builder gets the trimmed topic, the retain flag and the
        level of the QoS table, and the built message is handed to the engine.  A send
        failure is routed by `RouteError`. */
    method PublishAsync(topicName: string, builder: MessageBuilder, outcome: Outcome<EngineError>, qos: PublicQos := Qos0) returns (r: Outcome<Exn>)
      requires Valid()
      modifies builder, this`reconnectHandlers, this`engineOps, this`errorsHandled
      ensures Valid()
      ensures IsBlank(topicName) || !engineCreated ==>
                unchanged(builder) && reconnectHandlers == old(reconnectHandlers)
                && engineOps == old(engineOps) && errorsHandled == old(errorsHandled)
      ensures IsBlank(topicName) ==> r == Fail(Exception(EmptyPublishTopicMessage))
      ensures !IsBlank(topicName) && !engineCreated ==> r == Fail(NullReference)
      ensures !IsBlank(topicName) && engineCreated ==>
                && reconnectHandlers == old(reconnectHandlers) + (if connected then 0 else ReconnectRegistrations)
                && engineOps == old(engineOps) + [PublishRequest(PublishedMessage(topicName, old(builder.payload), qos))]
                && builder.topic == Some(Trim(topicName)) && builder.retain && builder.qos == EngineQos(qos)
                && builder.payload == old(builder.payload)
      ensures !IsBlank(topicName) && engineCreated && outcome.Pass? ==> r == Pass && errorsHandled == old(errorsHandled)
      ensures !IsBlank(topicName) && engineCreated && outcome.Fail? && !config.hasExceptionCallback ==>
                r == Fail(Engine(outcome.error)) && errorsHandled == old(errorsHandled)
      ensures !IsBlank(topicName) && engineCreated && outcome.Fail? && config.hasExceptionCallback ==>
                r == Pass && errorsHandled == old(errorsHandled) + [Engine(outcome.error)]
    {
      var topic := Trim(topicName);
      if topic == [] {
        return Fail(Exception(EmptyPublishTopicMessage));
      }
      r := ReConnected();
      if r.Fail? {
        return;
      }
      var message := ConfigureBuilder(builder, topic, qos);
      engineOps := engineOps + [PublishRequest(message)];
      if outcome.Fail? {
        r := RouteError(Engine(outcome.error));
      } else {
        r := Pass;
      }
    }

    /** `Publish(string, byte[], PublicQos)`: a fresh builder carrying the payload, then
        `PublishAsync`; `qos` defaults to `Qos_0`, which the table sends as at-least-once. */
    method Publish(topicName: string, payload: Bytes, outcome: Outcome<EngineError>, qos: PublicQos := Qos0) returns (r: Outcome<Exn>)
      requires Valid()
      modifies this`reconnectHandlers, this`engineOps, this`errorsHandled
      ensures Valid()
      ensures IsBlank(topicName) || !engineCreated ==>
                reconnectHandlers == old(reconnectHandlers) && engineOps == old(engineOps) && errorsHandled == old(errorsHandled)
      ensures IsBlank(topicName) ==> r == Fail(Exception(EmptyPublishTopicMessage))
      ensures !IsBlank(topicName) && !engineCreated ==> r == Fail(NullReference)
      ensures !IsBlank(topicName) && engineCreated ==>
                && reconnectHandlers == old(reconnectHandlers) + (if connected then 0 else ReconnectRegistrations)
                && engineOps == old(engineOps) + [PublishRequest(PublishedMessage(topicName, payload, qos))]
      ensures !IsBlank(topicName) && engineCreated && outcome.Pass? ==> r == Pass && errorsHandled == old(errorsHandled)
      ensures !IsBlank(topicName) && engineCreated && outcome.Fail? && !config.hasExceptionCallback ==>
                r == Fail(Engine(outcome.error)) && errorsHandled == old(errorsHandled)
      ensures !IsBlank(topicName) && engineCreated && outcome.Fail? && config.hasExceptionCallback ==>
                r == Pass && errorsHandled == old(errorsHandled) + [Engine(outcome.error)]
    {
      var builder := new MessageBuilder();
      builder.WithPayload(payload);
      r := PublishAsync(topicName, builder, outcome, qos);
    }

    /** `Publish(string, string, PublicQos)`: as `Publish`, with the text encoded by
        `encode` (UTF-8 in the library); `qos` defaults to `Qos_0` as well. */
    method PublishText(topicName: string, message: string, encode: string -> Bytes, outcome: Outcome<EngineError>, qos: PublicQos := Qos0)
      returns (r: Outcome<Exn>)
      requires Valid()
      modifies this`reconnectHandlers, this`engineOps, this`errorsHandled
      ensures Valid()
      ensures IsBlank(topicName) || !engineCreated ==>
                reconnectHandlers == old(reconnectHandlers) && engineOps == old(engineOps) && errorsHandled == old(errorsHandled)
      ensures IsBlank(topicName) ==> r == Fail(Exception(EmptyPublishTopicMessage))
      ensures !IsBlank(topicName) && !engineCreated ==> r == Fail(NullReference)
      ensures !IsBlank(topicName) && engineCreated ==>
                && reconnectHandlers == old(reconnectHandlers) + (if connected then 0 else ReconnectRegistrations)
                && engineOps == old(engineOps) + [PublishRequest(PublishedMessage(topicName, encode(message), qos))]
      ensures !IsBlank(topicName) && engineCreated && outcome.Pass? ==> r == Pass && errorsHandled == old(errorsHandled)
      ensures !IsBlank(topicName) && engineCreated && outcome.Fail? && !config.hasExceptionCallback ==>
                r == Fail(Engine(outcome.error)) && errorsHandled == old(errorsHandled)
      ensures !IsBlank(topicName) && engineCreated && outcome.Fail? && config.hasExceptionCallback ==>
                r == Pass && errorsHandled == old(errorsHandled) + [Engine(outcome.error)]
    {
      r := Publish(topicName, encode(message), outcome, qos);
    }

    /** A call that leaves the QoS out publishes at-least-once: the default `Qos_0`
        goes through the same inverted table. */
    method PublishWithDefaultQos(topicName: string, payload: Bytes) returns (r: Outcome<Exn>)
      requires Valid() && engineCreated && !IsBlank(topicName)
      modifies this`reconnectHandlers, this`engineOps, this`errorsHandled
      ensures r == Pass
      ensures engineOps == old(engineOps) + [PublishRequest(ApplicationMessage(Trim(topicName), payload, AtLeastOnce, true))]
    {
      r := Publish(topicName, payload, Pass);
    }
  }

  /** A client configured with an address and a port that starts and then publishes,
      both calls succeeding, hands the engine exactly a connect and then the published
      message, and delivers nothing. */
  method StartThenPublish(config: MqttClientConfig, utf8: Bytes -> string, newGuid: string, topicName: string, payload: Bytes)
    returns (c: MqttClient, r: Outcome<Exn>)
    requires config.serverIp.Some? && config.port > 0 && !IsBlank(topicName)
    modifies config`clientId
    ensures r == Pass && c.connected && c.reconnectHandlers == 0 && c.delivered == [] && c.errorsHandled == []
    ensures c.options == Some(ClientOptions(config.serverIp, config.port, config.userName, config.password,
                                            if old(config.clientId).Some? then old(config.clientId).value else newGuid))
    ensures c.engineOps == [ConnectRequest(c.options.value), PublishRequest(PublishedMessage(topicName, payload, Qos0))]
  {
    c, r := MqttClient.New(config, utf8, newGuid, None);
    r := c.Start(Pass);
    assert c.Valid() && c.engineCreated && c.connected;
    assert c.engineOps == [ConnectRequest(c.options.value)] && c.reconnectHandlers == 0 && c.delivered == [];
    r := c.Publish(topicName, payload, Pass);
  }

  /** A disconnected client registers its handlers, connects, and then loses the
      connection; one handler answering that loss reconnects it. */
  method LostThenReconnected(c: MqttClient) returns (r: Outcome<Exn>)
    requires c.Valid() && c.engineCreated && !c.connected
    modifies c`connected, c`reconnectHandlers, c`engineOps, c`errorsHandled, c`disconnectPending
    ensures r == Pass && c.connected && !c.disconnectPending && c.errorsHandled == old(c.errorsHandled)
    ensures c.reconnectHandlers == old(c.reconnectHandlers) + ReconnectRegistrations
    ensures c.engineOps == old(c.engineOps) + [ConnectRequest(c.options.value), ConnectRequest(c.options.value)]
    ensures c.options == old(c.options)
  {
    r := c.ReConnected();
    r := c.Start(Pass);
    c.ConnectionLost();
    r := c.ReconnectHandler(Pass);
  }
}
