/** The server half of the facade (`MqttServer.cs`): the connection-admission delegate,
    the options and port override built by `Init`, `Init`'s error routing, and the
    translation of five engine events into `MqttServerRecive` notifications. */
module Server {
  import opened Wrappers
  import opened Protocol

  /** `DefaultEndpointOptions.Port` of fresh `MqttServerOptions`. */
  const DefaultEndpointPort: int32 := 1883

  // ---------------------------------------------------------------------------
  // Configuration and records

  /** `MqttServerConnValidator`; each list may be null (`None`) and may hold null
      entries. */
  datatype MqttServerConnValidator = MqttServerConnValidator(
    clientIds: Option<seq<Option<string>>>,
    usernames: Option<seq<Option<string>>>,
    passwords: Option<seq<Option<string>>>,
    port: int32)

  /** `MqttServerConfig`; each callback is represented by whether it is set. */
  datatype MqttServerConfig = MqttServerConfig(
    connectionValidator: Option<MqttServerConnValidator>,
    subscribedTopic: bool,
    unSubscribedTopic: bool,
    messageReceived: bool,
    clientConnected: bool,
    clientDisConnected: bool,
    exceptionCallBack: bool)

  /** `MqttServerRecive`; fields a handler leaves unset keep their C# defaults (null
      strings, `AtMostOnce`, `false`). */
  datatype MqttServerRecive = MqttServerRecive(
    clientId: string,
    topic: Option<string>,
    payload: Option<string>,
    qos: QosLevel,
    retain: bool,
    msg: string)

  /** `MqttConnectReasonCode`, as far as the delegate names it. */
  datatype MqttConnectReasonCode = Success | ClientIdentifierNotValid | BadUserNameOrPassword

  /** The `MqttConnectionValidatorContext` the engine passes to the delegate; the
      engine starts every attempt with reason code `Success`. */
  class ConnectionValidatorContext {
    const clientId: string
    const username: Option<string>
    const password: Option<string>
    var reasonCode: MqttConnectReasonCode

    constructor (clientId: string, username: Option<string>, password: Option<string>)
      ensures this.clientId == clientId && this.username == username && this.password == password
      ensures reasonCode == MqttConnectReasonCode.Success
    {
      this.clientId, this.username, this.password := clientId, username, password;
      reasonCode := MqttConnectReasonCode.Success;
    }
  }

  // ---------------------------------------------------------------------------
  // Enumerable.First

  /** How `list.First(s => s.Equals(target))` ends: it returns the element at `index`,
      or dereferences the null element at `index`, or finds no match. */
  datatype FirstOutcome = Found(index: nat) | NullElement(index: nat) | NoMatch

  /** The scan `First` performs, element by element from the front. */
  function FindFirst(xs: seq<Option<string>>, target: Option<string>): (r: FirstOutcome)
    ensures r.Found? ==> r.index < |xs| && xs[r.index].Some? && xs[r.index] == target
    ensures r.NullElement? ==> r.index < |xs| && xs[r.index].None?
    ensures r.Found? || r.NullElement? ==> forall j :: 0 <= j < r.index ==> xs[j].Some? && xs[j] != target
    ensures r.NoMatch? ==> forall j :: 0 <= j < |xs| ==> xs[j].Some? && xs[j] != target
  {
    if xs == [] then NoMatch
    else if xs[0].None? then NullElement(0)
    else if xs[0] == target then Found(0)
    else match FindFirst(xs[1..], target)
      case Found(i) => Found(i + 1)
      case NullElement(i) => NullElement(i + 1)
      case NoMatch => NoMatch
  }

  /** In a list without null entries, `First` finds exactly the targets the list holds. */
  lemma FindFirstFindsMembers(xs: seq<Option<string>>, target: Option<string>)
    requires forall j :: 0 <= j < |xs| ==> xs[j].Some?
    ensures FindFirst(xs, target).Found? <==> target in xs
  {
    if target in xs {
      var j :| 0 <= j < |xs| && xs[j] == target;
      assert !FindFirst(xs, target).NoMatch?;
    }
  }

  /** What `First` returns is a member of the list. */
  lemma FoundIsMember(xs: seq<Option<string>>, target: Option<string>)
    ensures FindFirst(xs, target).Found? ==> target in xs
  {
    var r := FindFirst(xs, target);
    if r.Found? {
      assert xs[r.index] == target;
    }
  }

  /** The exception `First` raises when it does not return. */
  function FirstException(r: FirstOutcome): (e: Exn)
    ensures e == NullReference <==> r.NullElement?
    ensures e == InvalidOperation <==> !r.NullElement?
  {
    match r
    case NullElement(_) => NullReference
    case _ => InvalidOperation
  }

  // ---------------------------------------------------------------------------
  // Admission

  /** A connection attempt: what the context exposes to the delegate. */
  datatype ConnectAttempt = ConnectAttempt(clientId: string, username: Option<string>, password: Option<string>)

  /** How the delegate ends: normally with the context's reason code, or by throwing. */
  datatype Verdict = Completed(reasonCode: MqttConnectReasonCode) | Threw(error: Exn)

  /** The client-id dimension is checked only for a non-null, non-empty list. */
  predicate ClientIdsEnforced(v: MqttServerConnValidator): (enforced: bool)
    ensures v.clientIds.None? ==> !enforced
    ensures v.clientIds.Some? && |v.clientIds.value| == 0 ==> !enforced
    ensures v.clientIds.Some? && |v.clientIds.value| != 0 ==> enforced
  {
    v.clientIds.Some? && |v.clientIds.value| > 0
  }

  /** The credential dimension is checked only when both lists are non-null and
      non-empty. */
  predicate CredentialsEnforced(v: MqttServerConnValidator): (enforced: bool)
    ensures v.usernames.None? || v.passwords.None? ==> !enforced
    ensures (v.usernames.Some? && |v.usernames.value| == 0) || (v.passwords.Some? && |v.passwords.value| == 0) ==> !enforced
    ensures v.usernames.Some? && v.passwords.Some? && |v.usernames.value| != 0 && |v.passwords.value| != 0 ==> enforced
  {
    v.usernames.Some? && v.passwords.Some? && |v.usernames.value| > 0 && |v.passwords.value| > 0
  }

  /** What the delegate does with an attempt whose context starts at reason code `code`:
      each enforced dimension either finds the attempted value or throws, the client-id
      check first; the password is never looked at, and the reason code is never
      changed. */
  function Admission(v: MqttServerConnValidator, a: ConnectAttempt, code: MqttConnectReasonCode): (verdict: Verdict)
    ensures verdict.Completed? ==> verdict.reasonCode == code
    ensures verdict.Threw? ==> verdict.error == InvalidOperation || verdict.error == NullReference
  {
    if ClientIdsEnforced(v) && !FindFirst(v.clientIds.value, Some(a.clientId)).Found? then
      Threw(FirstException(FindFirst(v.clientIds.value, Some(a.clientId))))
    else if CredentialsEnforced(v) && !FindFirst(v.usernames.value, a.username).Found? then
      Threw(FirstException(FindFirst(v.usernames.value, a.username)))
    else
      Completed(code)
  }

  /** An attempt the delegate lets through matched every enforced dimension. */
  lemma CompletedMeansMatched(v: MqttServerConnValidator, a: ConnectAttempt, code: MqttConnectReasonCode)
    requires Admission(v, a, code).Completed?
    ensures ClientIdsEnforced(v) ==> Some(a.clientId) in v.clientIds.value
    ensures CredentialsEnforced(v) ==> a.username.Some? && a.username in v.usernames.value
  {
    if ClientIdsEnforced(v) {
      var i := FindFirst(v.clientIds.value, Some(a.clientId)).index;
      assert v.clientIds.value[i] == Some(a.clientId);
    }
    if CredentialsEnforced(v) {
      var i := FindFirst(v.usernames.value, a.username).index;
      assert v.usernames.value[i] == a.username;
    }
  }

  /** With lists free of null entries, the delegate completes exactly when every
      enforced dimension holds the attempted value. */
  lemma CompletedIffMatched(v: MqttServerConnValidator, a: ConnectAttempt, code: MqttConnectReasonCode)
    requires v.clientIds.Some? ==> forall j :: 0 <= j < |v.clientIds.value| ==> v.clientIds.value[j].Some?
    requires v.usernames.Some? ==> forall j :: 0 <= j < |v.usernames.value| ==> v.usernames.value[j].Some?
    ensures Admission(v, a, code).Completed? <==>
              (ClientIdsEnforced(v) ==> Some(a.clientId) in v.clientIds.value)
              && (CredentialsEnforced(v) ==> a.username in v.usernames.value)
  {
    if v.clientIds.Some? {
      FindFirstFindsMembers(v.clientIds.value, Some(a.clientId));
    }
    if v.usernames.Some? {
      FindFirstFindsMembers(v.usernames.value, a.username);
    }
  }

  /** A client id missing from an enforced list is never admitted: the delegate throws
      instead of setting `ClientIdentifierNotValid`. */
  lemma UnknownClientIdThrows(v: MqttServerConnValidator, a: ConnectAttempt, code: MqttConnectReasonCode)
    requires ClientIdsEnforced(v) && Some(a.clientId) !in v.clientIds.value
    ensures Admission(v, a, code).Threw?
  {
    FoundIsMember(v.clientIds.value, Some(a.clientId));
  }

  /** A username missing from an enforced list is never admitted, whatever the password:
      the delegate throws instead of setting `BadUserNameOrPassword`. */
  lemma UnknownUsernameThrows(v: MqttServerConnValidator, a: ConnectAttempt, code: MqttConnectReasonCode)
    requires CredentialsEnforced(v) && a.username !in v.usernames.value
    ensures Admission(v, a, code).Threw?
  {
    FoundIsMember(v.usernames.value, a.username);
  }

  /** The password plays no part in the decision. */
  lemma PasswordNeverConsulted(v: MqttServerConnValidator, a: ConnectAttempt, other: Option<string>, code: MqttConnectReasonCode)
    ensures Admission(v, a.(password := other), code) == Admission(v, a, code)
  {
  }

  /** There is no early return between the checks: once the client id is found, the
      outcome is that of the credential check alone. */
  lemma CredentialCheckFollowsClientIdMatch(v: MqttServerConnValidator, a: ConnectAttempt, code: MqttConnectReasonCode)
    requires ClientIdsEnforced(v) && Some(a.clientId) in v.clientIds.value
    requires forall j :: 0 <= j < |v.clientIds.value| ==> v.clientIds.value[j].Some?
    ensures Admission(v, a, code) == Admission(v.(clientIds := None), a, code)
  {
    FindFirstFindsMembers(v.clientIds.value, Some(a.clientId));
  }

  /** With neither dimension enforced every attempt completes untouched. */
  lemma UnenforcedAdmitsAll(v: MqttServerConnValidator, a: ConnectAttempt, code: MqttConnectReasonCode)
    requires !ClientIdsEnforced(v) && !CredentialsEnforced(v)
    ensures Admission(v, a, code) == Completed(code)
  {
  }

  // ---------------------------------------------------------------------------
  // Event translation

  /** The engine events the server listens to, with the fields the handlers read. */
  datatype ServerEvent =
    | ClientSubscribedTopicArgs(clientId: string, topicFilter: TopicFilter)
    | ClientUnsubscribedTopicArgs(clientId: string, topic: string)
    | ApplicationMessageReceivedArgs(clientId: string, message: ApplicationMessage)
    | ClientConnectedArgs(clientId: string)
    | ClientDisconnectedArgs(clientId: string)

  /** The configuration's five notification callbacks. */
  datatype Callback = SubscribedTopic | UnSubscribedTopic | MessageReceived | ClientConnected | ClientDisConnected

  /** A record handed to one of the callbacks. */
  datatype Notification = Notification(callback: Callback, record: MqttServerRecive)

  /** The callback an event is meant for: each kind of event has its own. */
  function CallbackFor(e: ServerEvent): (c: Callback)
    ensures c == SubscribedTopic <==> e.ClientSubscribedTopicArgs?
    ensures c == UnSubscribedTopic <==> e.ClientUnsubscribedTopicArgs?
    ensures c == MessageReceived <==> e.ApplicationMessageReceivedArgs?
    ensures c == ClientConnected <==> e.ClientConnectedArgs?
    ensures c == ClientDisConnected <==> e.ClientDisconnectedArgs?
  {
    match e
    case ClientSubscribedTopicArgs(_, _) => SubscribedTopic
    case ClientUnsubscribedTopicArgs(_, _) => UnSubscribedTopic
    case ApplicationMessageReceivedArgs(_, _) => MessageReceived
    case ClientConnectedArgs(_) => ClientConnected
    case ClientDisconnectedArgs(_) => ClientDisConnected
  }

  /** Whether the configuration sets the callback `c`: each callback is its own field,
      and no other field is consulted. */
  predicate HasCallback(config: MqttServerConfig, c: Callback): (b: bool)
    ensures c == SubscribedTopic ==> (b <==> config.subscribedTopic)
    ensures c == UnSubscribedTopic ==> (b <==> config.unSubscribedTopic)
    ensures c == MessageReceived ==> (b <==> config.messageReceived)
    ensures c == ClientConnected ==> (b <==> config.clientConnected)
    ensures c == ClientDisConnected ==> (b <==> config.clientDisConnected)
  {
    match c
    case SubscribedTopic => config.subscribedTopic
    case UnSubscribedTopic => config.unSubscribedTopic
    case MessageReceived => config.messageReceived
    case ClientConnected => config.clientConnected
    case ClientDisConnected => config.clientDisConnected
  }

  /** `a + b` starts with `a` and continues with `b`. */
  lemma ConcatSplits(a: string, b: string)
    ensures a <= a + b && (a + b)[|a|..] == b
  {
  }

  /** The text every summary opens with, before the client id. */
  const TagOpening := "客户端["

  /** "客户端[<id>]", the head of every summary. */
  function Tagged(clientId: string): (t: string)
    ensures TagOpening <= t && |t| == |TagOpening| + |clientId| + 1
    ensures t[|TagOpening|..|t| - 1] == clientId && t[|t| - 1] == ']'
  {
    var t := TagOpening + clientId + "]";
    assert t[|TagOpening|..|t| - 1] == clientId;
    t
  }

  /** `Msg` of a subscription record: the client's tag, then "已订阅主题：", then the
      filter's topic. */
  function SubscribedSummary(clientId: string, topic: string): (s: string)
    ensures Tagged(clientId) <= s
    ensures |Tagged(clientId)| + |topic| <= |s| && s[|s| - |topic|..] == topic
    ensures s[|Tagged(clientId)|..|s| - |topic|] == "已订阅主题："
  {
    var s := Tagged(clientId) + "已订阅主题：" + topic;
    assert s[|s| - |topic|..] == topic;
    s
  }

  /** `Msg` of an unsubscription record: the client's tag, then "已取消订阅主题：", then
      the filter. */
  function UnsubscribedSummary(clientId: string, topicFilter: string): (s: string)
    ensures Tagged(clientId) <= s
    ensures |Tagged(clientId)| + |topicFilter| <= |s| && s[|s| - |topicFilter|..] == topicFilter
    ensures s[|Tagged(clientId)|..|s| - |topicFilter|] == "已取消订阅主题："
  {
    var s := Tagged(clientId) + "已取消订阅主题：" + topicFilter;
    assert s[|s| - |topicFilter|..] == topicFilter;
    s
  }

  /** The labels of a message summary's four fields, each opening a bracket; all but
      the first close the previous field's bracket. */
  const TopicLabel := ">> 主题：["
  const PayloadLabel := "] 负载：["
  const QosLabel := "] Qos：["
  const RetainLabel := "] 保留：["

  /** `Msg` of a message record: the client's tag, then topic, payload text, QoS name
      and retain flag, each labelled and in brackets, the retain flag last. */
  function MessageSummary(clientId: string, topic: string, payload: string, qos: QosLevel, retain: bool): (s: string)
    ensures Tagged(clientId) <= s
    ensures |BoolText(retain)| + 1 <= |s| && s[|s| - |BoolText(retain)| - 1..] == BoolText(retain) + "]"
  {
    var fields := TopicLabel + topic + PayloadLabel + payload + QosLabel + QosName(qos) + RetainLabel;
    var head := Tagged(clientId) + fields;
    var tail := BoolText(retain) + "]";
    ConcatSplits(Tagged(clientId), fields);
    ConcatSplits(head, tail);
    head + tail
  }

  /** The fields of a message summary in order after the tag: the topic, the payload
      text, the QoS name and the retain flag, each after its label. */
  lemma MessageSummaryLayout(clientId: string, topic: string, payload: string, qos: QosLevel, retain: bool)
    ensures var s := MessageSummary(clientId, topic, payload, qos, retain);
            |Tagged(clientId)| <= |s|
            && s[|Tagged(clientId)|..] == TopicLabel + topic + PayloadLabel + payload + QosLabel + QosName(qos)
                                          + RetainLabel + (BoolText(retain) + "]")
  {
    var t := Tagged(clientId);
    var fields := TopicLabel + topic + PayloadLabel + payload + QosLabel + QosName(qos) + RetainLabel;
    var tail := BoolText(retain) + "]";
    assert t + fields + tail == t + (fields + tail);
    ConcatSplits(t, fields + tail);
  }

  /** `Msg` of a connection record: the client's tag, then "已连接". */
  function ConnectedSummary(clientId: string): (s: string)
    ensures Tagged(clientId) <= s
    ensures s[|Tagged(clientId)|..] == "已连接"
  {
    Tagged(clientId) + "已连接"
  }

  /** `Msg` of a disconnection record: the client's tag, then "已断开连接". */
  function DisconnectedSummary(clientId: string): (s: string)
    ensures Tagged(clientId) <= s
    ensures s[|Tagged(clientId)|..] == "已断开连接"
  {
    Tagged(clientId) + "已断开连接"
  }

  /** The record a handler builds for an event: it names the event's client, its
      summary opens with that client's tag, only message records carry a payload, and
      only connection and disconnection records lack a topic. */
  function Record(e: ServerEvent, utf8: Bytes -> string): (r: MqttServerRecive)
    ensures r.clientId == e.clientId && Tagged(e.clientId) <= r.msg
    ensures r.payload.Some? <==> e.ApplicationMessageReceivedArgs?
    ensures r.topic.None? <==> (e.ClientConnectedArgs? || e.ClientDisconnectedArgs?)
    ensures !e.ApplicationMessageReceivedArgs? ==> r.qos == AtMostOnce && !r.retain
    ensures e.ClientSubscribedTopicArgs? ==> r.msg == SubscribedSummary(e.clientId, e.topicFilter.topic)
    ensures e.ClientUnsubscribedTopicArgs? ==> r.msg == UnsubscribedSummary(e.clientId, e.topic)
    ensures e.ApplicationMessageReceivedArgs? ==>
              r.msg == MessageSummary(e.clientId, e.message.topic, utf8(e.message.payload), e.message.qos, e.message.retain)
    ensures e.ClientConnectedArgs? ==> r.msg == ConnectedSummary(e.clientId)
    ensures e.ClientDisconnectedArgs? ==> r.msg == DisconnectedSummary(e.clientId)
  {
    match e
    case ClientSubscribedTopicArgs(id, filter) =>
      MqttServerRecive(id, Some(filter.topic), None, AtMostOnce, false, SubscribedSummary(id, filter.topic))
    case ClientUnsubscribedTopicArgs(id, filter) =>
      MqttServerRecive(id, Some(filter), None, AtMostOnce, false, UnsubscribedSummary(id, filter))
    case ApplicationMessageReceivedArgs(id, m) =>
      var payload := utf8(m.payload);
      MqttServerRecive(id, Some(m.topic), Some(payload), m.qos, m.retain,
                       MessageSummary(id, m.topic, payload, m.qos, m.retain))
    case ClientConnectedArgs(id) =>
      MqttServerRecive(id, None, None, AtMostOnce, false, ConnectedSummary(id))
    case ClientDisconnectedArgs(id) =>
      MqttServerRecive(id, None, None, AtMostOnce, false, DisconnectedSummary(id))
  }

  /** What one engine event produces: a notification for the event's own callback when
      that callback is set, and nothing otherwise.  The record names the event's client;
      subscription records carry the filter's topic, message records the message's topic,
      decoded payload, QoS and retain flag, and connection and disconnection records no topic or payload. */
  function Translate(config: MqttServerConfig, e: ServerEvent, utf8: Bytes -> string): (n: Option<Notification>)
    ensures n.Some? <==> HasCallback(config, CallbackFor(e))
    ensures n.Some? ==> n.value.callback == CallbackFor(e) && n.value.record == Record(e, utf8)
    ensures n.Some? ==> n.value.record.clientId == e.clientId
    ensures n.Some? && e.ClientSubscribedTopicArgs? ==> n.value.record.topic == Some(e.topicFilter.topic)
    ensures n.Some? && e.ClientUnsubscribedTopicArgs? ==> n.value.record.topic == Some(e.topic)
    ensures n.Some? && e.ApplicationMessageReceivedArgs? ==>
              var r := n.value.record;
              r.topic == Some(e.message.topic) && r.payload == Some(utf8(e.message.payload))
              && r.qos == e.message.qos && r.retain == e.message.retain
    ensures n.Some? && (e.ClientConnectedArgs? || e.ClientDisconnectedArgs?) ==>
              n.value.record.topic == None && n.value.record.payload == None
  {
    if HasCallback(config, CallbackFor(e)) then Some(Notification(CallbackFor(e), Record(e, utf8))) else None
  }

  /** For one client, a subscription summary never reads like an unsubscription
      summary: the text after the tag differs in its second character. */
  lemma SubscribedAndUnsubscribedSummariesDiffer(clientId: string, topic: string, topicFilter: string)
    ensures SubscribedSummary(clientId, topic) != UnsubscribedSummary(clientId, topicFilter)
  {
    var x := SubscribedSummary(clientId, topic);
    var y := UnsubscribedSummary(clientId, topicFilter);
    var n := |Tagged(clientId)|;
    assert x[n + 1] == "已订阅主题："[1];
    assert y[n + 1] == "已取消订阅主题："[1];
  }

  /** The retain flag can be read back from the end of a message summary, whatever
      the client, topic, payload and QoS. */
  lemma MessageSummaryShowsRetain(c1: string, t1: string, p1: string, q1: QosLevel, r1: bool,
                                  c2: string, t2: string, p2: string, q2: QosLevel, r2: bool)
    requires MessageSummary(c1, t1, p1, q1, r1) == MessageSummary(c2, t2, p2, q2, r2)
    ensures r1 == r2
  {
    var s := MessageSummary(c1, t1, p1, q1, r1);
    RetainSuffixDecides(s, r1, r2);
  }

  /** A text cannot end both in "True]" and in "False]". */
  lemma RetainSuffixDecides(s: string, r1: bool, r2: bool)
    requires |BoolText(r1)| + 1 <= |s| && s[|s| - |BoolText(r1)| - 1..] == BoolText(r1) + "]"
    requires |BoolText(r2)| + 1 <= |s| && s[|s| - |BoolText(r2)| - 1..] == BoolText(r2) + "]"
    ensures r1 == r2
  {
    assert s[|s| - 5] == (BoolText(r1) + "]")[|BoolText(r1)| - 4];
    assert s[|s| - 5] == (BoolText(r2) + "]")[|BoolText(r2)| - 4];
  }

  /** A connection summary determines the client it names. */
  lemma ConnectedSummaryInjective(a: string, b: string)
    requires ConnectedSummary(a) == ConnectedSummary(b)
    ensures a == b
  {
    var m := ConnectedSummary(a);
    assert a == m[|TagOpening|..|TagOpening| + |a|];
    assert b == ConnectedSummary(b)[|TagOpening|..|TagOpening| + |b|];
  }

  /** A disconnection summary determines the client it names. */
  lemma DisconnectedSummaryInjective(a: string, b: string)
    requires DisconnectedSummary(a) == DisconnectedSummary(b)
    ensures a == b
  {
    var m := DisconnectedSummary(a);
    assert a == m[|TagOpening|..|TagOpening| + |a|];
    assert b == DisconnectedSummary(b)[|TagOpening|..|TagOpening| + |b|];
  }

  /** No connection summary reads like a disconnection summary. */
  lemma ConnectedAndDisconnectedSummariesDiffer(a: string, b: string)
    ensures ConnectedSummary(a) != DisconnectedSummary(b)
  {
    var x := ConnectedSummary(a);
    var y := DisconnectedSummary(b);
    assert x[|x| - 3] == '已';
    assert y[|y| - 3] == '开';
  }

  /** What the handlers deliver tells the kinds apart by `Msg` alone: a connection
      notice never reads like a disconnection notice, and one client's subscription
      notice never reads like its unsubscription notice. */
  lemma DeliveredSummariesTellKindsApart(config: MqttServerConfig, e1: ServerEvent, e2: ServerEvent, utf8: Bytes -> string)
    requires Translate(config, e1, utf8).Some? && Translate(config, e2, utf8).Some?
    requires (e1.ClientConnectedArgs? && e2.ClientDisconnectedArgs?)
             || (e1.ClientSubscribedTopicArgs? && e2.ClientUnsubscribedTopicArgs? && e1.clientId == e2.clientId)
    ensures Translate(config, e1, utf8).value.record.msg != Translate(config, e2, utf8).value.record.msg
  {
    if e1.ClientConnectedArgs? {
      ConnectedAndDisconnectedSummariesDiffer(e1.clientId, e2.clientId);
    } else {
      SubscribedAndUnsubscribedSummariesDiffer(e1.clientId, e1.topicFilter.topic, e2.topic);
    }
  }

  // ---------------------------------------------------------------------------
  // The server

  /** The part of `MqttServerOptions` the facade sets. */
  datatype ServerOptions = ServerOptions(hasConnectionValidator: bool, defaultEndpointPort: int32)

  /** `MqttServer`.  The engine (`_mqttServer`) is reduced to whether it exists and
      whether the five handlers are bound to it. */
  class MqttServer {
    const config: MqttServerConfig
    const utf8: Bytes -> string          // `Encoding.UTF8.GetString`
    var options: Option<ServerOptions>   // `_options`
    var engineCreated: bool              // `_mqttServer != null`
    var handlersBound: bool              // the five event handlers are registered
    var errorsHandled: seq<Exn>          // exceptions passed to `config.ExceptionCallBack`
    var notifications: seq<Notification> // records passed to the callbacks, in order

    /** Handlers are bound together with the engine, which exists only after the
        options were built. */
    predicate Valid()
      reads this
    {
      (handlersBound <==> engineCreated) && (engineCreated ==> options.Some?)
    }

    constructor (config: MqttServerConfig, utf8: Bytes -> string)
      ensures Valid()
      ensures this.config == config && this.utf8 == utf8
      ensures options == None && !engineCreated && errorsHandled == [] && notifications == []
    {
      this.config, this.utf8 := config, utf8;
      options, engineCreated, handlersBound := None, false, false;
      errorsHandled, notifications := [], [];
    }

    /** `Init`'s catch block: rethrow without an `ExceptionCallBack`, otherwise pass the
        error to it and complete normally. */
    method RouteError(e: Exn) returns (r: Outcome<Exn>)
      modifies this`errorsHandled
      ensures !config.exceptionCallBack ==> r == Fail(e) && errorsHandled == old(errorsHandled)
      ensures config.exceptionCallBack ==> r == Pass && errorsHandled == old(errorsHandled) + [e]
    {
      if !config.exceptionCallBack {
        return Fail(e);
      }
      errorsHandled := errorsHandled + [e];
      r := Pass;
    }

    /** `Init`: without a `ConnectionValidator` the options are the defaults; with one,
        the delegate is installed and the endpoint port is overridden exactly when the
        validator's port is positive.  Then the engine is created and the handlers
        bound; `fault` is the error the library raises there, if any. */
    method Init(fault: Option<EngineError>) returns (r: Outcome<Exn>)
      requires Valid() && !engineCreated
      modifies this`options, this`engineCreated, this`handlersBound, this`errorsHandled
      ensures Valid()
      ensures config.connectionValidator.None? ==> options == Some(ServerOptions(false, DefaultEndpointPort))
      ensures config.connectionValidator.Some? ==>
                options == Some(ServerOptions(true,
                  if config.connectionValidator.value.port > 0 then config.connectionValidator.value.port
                  else DefaultEndpointPort))
      ensures fault.None? ==> r == Pass && engineCreated && errorsHandled == old(errorsHandled)
      ensures fault.Some? ==> !engineCreated
      ensures fault.Some? && !config.exceptionCallBack ==> r == Fail(Engine(fault.value)) && errorsHandled == old(errorsHandled)
      ensures fault.Some? && config.exceptionCallBack ==> r == Pass && errorsHandled == old(errorsHandled) + [Engine(fault.value)]
    {
      if config.connectionValidator.Some? {
        options := Some(ServerOptions(true, DefaultEndpointPort));
        if config.connectionValidator.value.port > 0 {
          options := Some(options.value.(defaultEndpointPort := config.connectionValidator.value.port));
        }
      } else {
        options := Some(ServerOptions(false, DefaultEndpointPort));
      }
      if fault.Some? {
        r := RouteError(Engine(fault.value));
        return;
      }
      engineCreated := true;
      handlersBound := true;
      r := Pass;
    }

    /** The constructor taking the host's configuration, then `Init`. */
    static method New(config: MqttServerConfig, utf8: Bytes -> string, fault: Option<EngineError>) returns (s: MqttServer, r: Outcome<Exn>)
      ensures fresh(s) && s.config == config && s.Valid() && s.options.Some?
      ensures s.utf8 == utf8 && s.notifications == []
      ensures s.options.value.hasConnectionValidator == config.connectionValidator.Some?
      ensures s.options.value.defaultEndpointPort ==
                if config.connectionValidator.Some? && config.connectionValidator.value.port > 0
                then config.connectionValidator.value.port else DefaultEndpointPort
      ensures fault.None? ==> r == Pass && s.engineCreated && s.errorsHandled == []
      ensures fault.Some? ==> !s.engineCreated
      ensures fault.Some? && !config.exceptionCallBack ==> r == Fail(Engine(fault.value)) && s.errorsHandled == []
      ensures fault.Some? && config.exceptionCallBack ==> r == Pass && s.errorsHandled == [Engine(fault.value)]
    {
      s := new MqttServer(config, utf8);
      r := s.Init(fault);
    }

    /** The connection-validator delegate installed by `Init`.  It runs the client-id
        check and then the credential check, each through `First(...) is null`; `First`
        either returns a matching (hence non-null) element or throws, so neither reason
        code assignment can take effect. */
    method ValidateConnection(p: ConnectionValidatorContext) returns (r: Outcome<Exn>)
      requires config.connectionValidator.Some?
      modifies p`reasonCode
      ensures var a := ConnectAttempt(p.clientId, p.username, p.password);
              Admission(config.connectionValidator.value, a, old(p.reasonCode))
                == if r.Pass? then Completed(p.reasonCode) else Threw(r.error)
      ensures p.reasonCode == old(p.reasonCode)
    {
      var v := config.connectionValidator.value;
      if v.clientIds.Some? && |v.clientIds.value| > 0 {
        var first := FindFirst(v.clientIds.value, Some(p.clientId));
        if !first.Found? {
          return Fail(FirstException(first));
        }
        var isNull := v.clientIds.value[first.index].None?;
        p.reasonCode := if isNull then ClientIdentifierNotValid else p.reasonCode;
      }
      if v.usernames.Some? && v.passwords.Some? && |v.usernames.value| > 0 && |v.passwords.value| > 0 {
        var first := FindFirst(v.usernames.value, p.username);
        if !first.Found? {
          return Fail(FirstException(first));
        }
        var isNull := v.usernames.value[first.index].None?;
        if !isNull {
          // the right operand of `||` repeats the same `First` over `Usernames`
          var second := FindFirst(v.usernames.value, p.username);
          if !second.Found? {
            return Fail(FirstException(second));
          }
          isNull := v.usernames.value[second.index].None?;
        }
        p.reasonCode := if isNull then BadUserNameOrPassword else p.reasonCode;
      }
      r := Pass;
    }

    /** Delivery of one engine event: at most one notification, the one `Translate`
        gives, is appended to the log. */
    method Dispatch(e: ServerEvent)
      requires Valid() && handlersBound
      modifies this`notifications
      ensures Translate(config, e, utf8).Some? ==> notifications == old(notifications) + [Translate(config, e, utf8).value]
      ensures Translate(config, e, utf8).None? ==> notifications == old(notifications)
    {
      var n := Translate(config, e, utf8);
      if n.Some? {
        notifications := notifications + [n.value];
      }
    }
  }
}
