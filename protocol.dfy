/** The protocol engine (the MQTTnet library) as the facade sees it: its value types,
    its message builder, and the exceptions that can reach the facade.  Engine
    operations themselves are not modelled here; each facade operation receives the
    engine's outcome as a parameter. */
module Protocol {
  import opened Wrappers

  /** A C# `int`. */
  newtype int32 = x: int | -0x8000_0000 <= x < 0x8000_0000

  type byte = bv8
  type Bytes = seq<byte>

  /** `MqttQualityOfServiceLevel`; its default value is `AtMostOnce`. */
  datatype QosLevel = AtMostOnce | AtLeastOnce | ExactlyOnce

  /** The enum's `ToString()`: the member name.  Every level ends in "Once", and the
      name tells the level apart from the other two. */
  function QosName(q: QosLevel): (name: string)
    ensures |name| > 4 && name[|name| - 4..] == "Once"
    ensures name[..|name| - 4] == (match q case AtMostOnce => "AtMost" case AtLeastOnce => "AtLeast" case ExactlyOnce => "Exactly")
  {
    match q
    case AtMostOnce => "AtMostOnce"
    case AtLeastOnce => "AtLeastOnce"
    case ExactlyOnce => "ExactlyOnce"
  }

  /** Different levels print differently. */
  lemma QosNameInjective(q1: QosLevel, q2: QosLevel)
    ensures QosName(q1) == QosName(q2) <==> q1 == q2
  {
  }

  /** `bool.ToString()`: "True" for true, "False" for false. */
  function BoolText(b: bool): (text: string)
    ensures text == "True" <==> b
    ensures text == "False" <==> !b
  {
    if b then "True" else "False"
  }

  /** `MqttApplicationMessage` restricted to the fields the facade reads or sets. */
  datatype ApplicationMessage = ApplicationMessage(topic: string, payload: Bytes, qos: QosLevel, retain: bool)

  /** `TopicFilter` as built by `MqttTopicFilterBuilder`. */
  datatype TopicFilter = TopicFilter(topic: string, qos: QosLevel)

  /** An opaque failure raised by the engine (connect, publish, subscribe, ...). */
  datatype EngineError = EngineError(code: int)

  /** The exceptions that can leave a facade operation. */
  datatype Exn =
    | Exception(message: string)            // `new Exception(message)`
    | ArgumentException(message: string)    // `new ArgumentException(message)`
    | InvalidOperation                      // `Enumerable.First` found no matching element
    | NullReference                         // a member was used through a null reference
    | Engine(error: EngineError)            // rethrown from the protocol engine

  /** `MqttClientOptions` as the client builds them in `Init`: the endpoint, the
      credentials and the resolved client id. */
  datatype ClientOptions = ClientOptions(server: Option<string>, port: int32, userName: Option<string>, password: Option<string>, clientId: string)

  /** A request the facade hands to the engine, recorded in the order it was made. */
  datatype EngineOp =
    | ConnectRequest(options: ClientOptions)
    | DisconnectRequest
    | PublishRequest(message: ApplicationMessage)
    | SubscribeRequest(filter: TopicFilter)
    | UnsubscribeRequest(topic: string)

  /** `MqttApplicationMessageBuilder`, a stand-in for the library's builder rather than
      an operation of the facade: each `With...` call overwrites one field. */
  class MessageBuilder {
    var topic: Option<string>
    var payload: Bytes
    var qos: QosLevel
    var retain: bool

    constructor ()
      ensures topic == None && payload == [] && qos == AtMostOnce && !retain
    {
      topic, payload, qos, retain := None, [], AtMostOnce, false;
    }

    method WithPayload(bytes: Bytes)
      modifies this`payload
      ensures payload == bytes
    {
      payload := bytes;
    }

    method WithTopic(t: string)
      modifies this`topic
      ensures topic == Some(t)
    {
      topic := Some(t);
    }

    /** `WithRetainFlag()` with its default argument `true`. */
    method WithRetainFlag()
      modifies this`retain
      ensures retain
    {
      retain := true;
    }

    method WithAtMostOnceQoS()
      modifies this`qos
      ensures qos == AtMostOnce
    {
      qos := AtMostOnce;
    }

    method WithAtLeastOnceQoS()
      modifies this`qos
      ensures qos == AtLeastOnce
    {
      qos := AtLeastOnce;
    }

    method WithExactlyOnceQoS()
      modifies this`qos
      ensures qos == ExactlyOnce
    {
      qos := ExactlyOnce;
    }

    /** The message the builder currently describes.  This abstracts the library's
        `Build()`; it is not modelled from the facade's own code. */
    method Build() returns (m: ApplicationMessage)
      requires topic.Some?
      ensures m == ApplicationMessage(topic.value, payload, qos, retain)
    {
      m := ApplicationMessage(topic.value, payload, qos, retain);
    }
  }
}
