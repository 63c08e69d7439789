/** MQTT packets as protobuf stream messages and back. Protobuf integers are wider than MQTT's; converting back
    truncates, and optional fields become defaults. */
module GrpcConversion {
  import opened Basics

  type u8 = x: nat | x < 0x100
  type u16 = x: nat | x < 0x1_0000
  type u32 = x: nat | x < 0x1_0000_0000

  function ToU8(x: int): (r: u8) { x % 0x100 }

  function ToU16(x: int): (r: u16) { x % 0x1_0000 }

  // ----- MQTT -----

  datatype Property =
    | PayloadFormatIndicator(flag: u8)
    | MessageExpiryInterval(long: u32)
    | ContentType(text: string)
    | ResponseTopic(text: string)
    | CorrelationData(data: Bytes)
    | SubscriptionIdentifier(long: u32)
    | SessionExpiryInterval(long: u32)
    | AssignedClientIdentifier(text: string)
    | ServerKeepAlive(short: u16)
    | AuthenticationMethod(text: string)
    | AuthenticationData(data: Bytes)
    | RequestProblemInformation(flag: u8)
    | WillDelayInterval(long: u32)
    | RequestResponseInformation(flag: u8)
    | ResponseInformation(text: string)
    | ServerReference(text: string)
    | ReasonString(text: string)
    | ReceiveMaximum(short: u16)
    | TopicAliasMaximum(short: u16)
    | TopicAlias(short: u16)
    | MaximumQoS(level: u8)
    | RetainAvailable(flag: u8)
    | UserProperty(key: string, value: string)
    | MaximumPacketSize(long: u32)
    | WildcardSubscriptionAvailable(flag: u8)
    | SubscriptionIdentifierAvailable(flag: u8)
    | SharedSubscriptionAvailable(flag: u8)

  datatype WillProperties = WillProperties(
    delay: Option<u32>, indicator: Option<u8>, expiry: Option<u32>, contentType: Option<string>,
      responseTopic: Option<string>,
    correlation: Option<Bytes>, user: seq<Property>)

  datatype Will5 = Will5(qos: u8, retain: bool, topic: string, message: Bytes, properties: WillProperties)

  datatype Will3 = Will3(qos: u8, retain: bool, topic: string, message: Bytes)

  datatype Filter5 = Filter5(filter: string, qos: u8, noLocal: bool, retainAsPublished: bool, retainHandling: u8)

  datatype Filter3 = Filter3(filter: string, qos: u8)

  datatype Mqtt3 =
    | Connect3(name: string, version: u8, cleanSession: bool, keepAlive: u16, client: string,
               will3: Option<Will3>, username: Option<string>, password: Option<Bytes>)
    | ConnAck3(present: bool, code: u8)
    | Publish3(dup: bool, qos: u8, retain: bool, topic: string, messageId: Option<u16>, payload: Bytes)
    | PubAck3(id: u16)
    | PubRec3(id: u16)
    | PubRel3(id: u16)
    | PubComp3(id: u16)
    | Subscribe3(id: u16, filters3: seq<Filter3>)
    | SubAck3(id: u16, codes: seq<u8>)
    | Unsubscribe3(id: u16, topics: seq<string>)
    | UnsubAck3(id: u16)
    | PingReq3
    | PingResp3
    | Disconnect3

  datatype Mqtt5 =
    | Connect5(name: string, version: u8, keepAlive: u16, client: string, will5: Option<Will5>,
               username: Option<string>, password: Option<Bytes>, props: seq<Property>, cleanStart: bool)
    | ConnAck5(present: bool, code: u8, optionalProps: Option<seq<Property>>)
    | Publish5(topic: string, qos: u8, dup: bool, retain: bool, messageId: Option<u16>, payload: Bytes,
      props: seq<Property>)
    | PubAck5(id: u16, code: u8, props: seq<Property>)
    | PubRec5(id: u16, code: u8, props: seq<Property>)
    | PubRel5(id: u16, code: u8, props: seq<Property>)
    | PubComp5(id: u16, code: u8, props: seq<Property>)
    | Subscribe5(id: u16, filters5: seq<Filter5>, props: seq<Property>)
    | SubAck5(id: u16, codes: seq<u8>, props: seq<Property>)
    | Unsubscribe5(id: u16, topics: seq<string>, props: seq<Property>)
    | UnsubAck5(id: u16, codes: seq<u8>, props: seq<Property>)
    | PingReq5
    | PingResp5
    | Disconnect5(code: u8, props: seq<Property>)
    | Auth5(code: u8, props: seq<Property>)

  datatype MqttPacket = Version3(packet3: Mqtt3) | Version5(packet5: Mqtt5)

  // ----- Protobuf -----

  datatype PbType =
    | PbPayloadFormatIndicator(on: bool)
    | PbMessageExpiryInterval(number: u32)
    | PbContentType(text: string)
    | PbResponseTopic(text: string)
    | PbCorrelationData(data: Bytes)
    | PbSubscriptionIdentifier(number: u32)
    | PbSessionExpiryInterval(number: u32)
    | PbAssignedClientIdentifier(text: string)
    | PbServerKeepAlive(number: u32)
    | PbAuthenticationMethod(text: string)
    | PbAuthenticationData(data: Bytes)
    | PbRequestProblemInformation(on: bool)
    | PbWillDelayInterval(number: u32)
    | PbRequestResponseInformation(on: bool)
    | PbResponseInformation(text: string)
    | PbServerReference(text: string)
    | PbReasonString(text: string)
    | PbReceiveMaximum(number: u32)
    | PbTopicAliasMaximum(number: u32)
    | PbTopicAlias(number: u32)
    | PbMaximumQos(number: u32)
    | PbRetainAvailable(on: bool)
    | PbUserProperty(key: string, value: string)
    | PbMaximumPacketSize(number: u32)
    | PbWildcardSubscriptionAvailable(on: bool)
    | PbSubscriptionIdentifiersAvailable(on: bool)
    | PbSharedSubscriptionAvailable(on: bool)

  datatype PbProperty = PbProperty(kind: Option<PbType>)

  datatype PbWill5 = PbWill5(qos: int, retain: bool, topic: string, payload: Bytes, properties: seq<PbProperty>)

  datatype PbWill3 = PbWill3(qos: int, retain: bool, topic: string, payload: Bytes)

  datatype PbFilter5 = PbFilter5(filter: string, qos: u32, noLocal: bool, retainAsPublished: bool, retainHandling: u32)

  datatype PbFilter3 = PbFilter3(filter: string, qos: u32)

  datatype Pb3 =
    | Connect(client: string, name: string, version: u32, clean: bool, keepAlive: u32, username: string,
      password: Bytes, will: Option<PbWill3>)
    | Connack(present: bool, code: u32)
    | Publish(topic: string, payload: Bytes, qos: int, retain: bool, dup: bool, messageId: u32)
    | Puback(id: u32)
    | Pubrec(id: u32)
    | Pubrel(id: u32)
    | Pubcomp(id: u32)
    | Subscribe(id: u32, filters: seq<PbFilter3>)
    | Suback(id: u32, codes: seq<u32>)
    | Unsubscribe(id: u32, topics: seq<string>)
    | Unsuback(id: u32)
    | Pingreq
    | Pingresp
    | Disconnect

  datatype Pb5 =
    | ConnectV5(client: string, name: string, version: u32, clean: bool, keepAlive: u32, username: string,
      password: Bytes,
                will: Option<PbWill5>, props: seq<PbProperty>)
    | ConnackV5(present: bool, code: u32, props: seq<PbProperty>)
    | PublishV5(topic: string, payload: Bytes, qos: int, retain: bool, dup: bool, messageId: u32,
      props: seq<PbProperty>)
    | PubackV5(id: u32, code: u32, props: seq<PbProperty>)
    | PubrecV5(id: u32, code: u32, props: seq<PbProperty>)
    | PubrelV5(id: u32, code: u32, props: seq<PbProperty>)
    | PubcompV5(id: u32, code: u32, props: seq<PbProperty>)
    | SubscribeV5(id: u32, filters: seq<PbFilter5>, props: seq<PbProperty>)
    | SubackV5(id: u32, codes: seq<u32>, props: seq<PbProperty>)
    | UnsubscribeV5(id: u32, topics: seq<string>, props: seq<PbProperty>)
    | UnsubackV5(id: u32, codes: seq<u32>, props: seq<PbProperty>)
    | PingreqV5
    | PingrespV5
    | DisconnectV5(code: u32, props: seq<PbProperty>)
    | AuthV5(code: u32, props: seq<PbProperty>)

  datatype Payload = V3(message3: Option<Pb3>) | V5(message5: Option<Pb5>)

  datatype StreamMessage = StreamMessage(sequence: nat, direction: int, payload: Option<Payload>)

  // ----- Properties -----

  function FlagOf(on: bool): (r: u8) { if on then 1 else 0 }

  function PropertyToPb(p: Property): (r: PbProperty) {
    PbProperty(Some(
      match p
      case PayloadFormatIndicator(v) => PbPayloadFormatIndicator(v != 0)
      case MessageExpiryInterval(v) => PbMessageExpiryInterval(v)
      case ContentType(v) => PbContentType(v)
      case ResponseTopic(v) => PbResponseTopic(v)
      case CorrelationData(v) => PbCorrelationData(v)
      case SubscriptionIdentifier(v) => PbSubscriptionIdentifier(v)
      case SessionExpiryInterval(v) => PbSessionExpiryInterval(v)
      case AssignedClientIdentifier(v) => PbAssignedClientIdentifier(v)
      case ServerKeepAlive(v) => PbServerKeepAlive(v)
      case AuthenticationMethod(v) => PbAuthenticationMethod(v)
      case AuthenticationData(v) => PbAuthenticationData(v)
      case RequestProblemInformation(v) => PbRequestProblemInformation(v != 0)
      case WillDelayInterval(v) => PbWillDelayInterval(v)
      case RequestResponseInformation(v) => PbRequestResponseInformation(v != 0)
      case ResponseInformation(v) => PbResponseInformation(v)
      case ServerReference(v) => PbServerReference(v)
      case ReasonString(v) => PbReasonString(v)
      case ReceiveMaximum(v) => PbReceiveMaximum(v)
      case TopicAliasMaximum(v) => PbTopicAliasMaximum(v)
      case TopicAlias(v) => PbTopicAlias(v)
      case MaximumQoS(v) => PbMaximumQos(v)
      case RetainAvailable(v) => PbRetainAvailable(v != 0)
      case UserProperty(k, v) => PbUserProperty(k, v)
      case MaximumPacketSize(v) => PbMaximumPacketSize(v)
      case WildcardSubscriptionAvailable(v) => PbWildcardSubscriptionAvailable(v != 0)
      case SubscriptionIdentifierAvailable(v) => PbSubscriptionIdentifiersAvailable(v != 0)
      case SharedSubscriptionAvailable(v) => PbSharedSubscriptionAvailable(v != 0)))
  }

  function PropertyFromPb(p: PbProperty): (r: Option<Property>) {
    match p.kind
    case None => None
    case Some(k) => Some(
      match k
      case PbPayloadFormatIndicator(v) => PayloadFormatIndicator(FlagOf(v))
      case PbMessageExpiryInterval(v) => MessageExpiryInterval(v)
      case PbContentType(v) => ContentType(v)
      case PbResponseTopic(v) => ResponseTopic(v)
      case PbCorrelationData(v) => CorrelationData(v)
      case PbSubscriptionIdentifier(v) => SubscriptionIdentifier(v)
      case PbSessionExpiryInterval(v) => SessionExpiryInterval(v)
      case PbAssignedClientIdentifier(v) => AssignedClientIdentifier(v)
      case PbServerKeepAlive(v) => ServerKeepAlive(ToU16(v))
      case PbAuthenticationMethod(v) => AuthenticationMethod(v)
      case PbAuthenticationData(v) => AuthenticationData(v)
      case PbRequestProblemInformation(v) => RequestProblemInformation(FlagOf(v))
      case PbWillDelayInterval(v) => WillDelayInterval(v)
      case PbRequestResponseInformation(v) => RequestResponseInformation(FlagOf(v))
      case PbResponseInformation(v) => ResponseInformation(v)
      case PbServerReference(v) => ServerReference(v)
      case PbReasonString(v) => ReasonString(v)
      case PbReceiveMaximum(v) => ReceiveMaximum(ToU16(v))
      case PbTopicAliasMaximum(v) => TopicAliasMaximum(ToU16(v))
      case PbTopicAlias(v) => TopicAlias(ToU16(v))
      case PbMaximumQos(v) => MaximumQoS(ToU8(v))
      case PbRetainAvailable(v) => RetainAvailable(FlagOf(v))
      case PbUserProperty(k, v) => UserProperty(k, v)
      case PbMaximumPacketSize(v) => MaximumPacketSize(v)
      case PbWildcardSubscriptionAvailable(v) => WildcardSubscriptionAvailable(FlagOf(v))
      case PbSubscriptionIdentifiersAvailable(v) => SubscriptionIdentifierAvailable(FlagOf(v))
      case PbSharedSubscriptionAvailable(v) => SharedSubscriptionAvailable(FlagOf(v)))
  }

  function PropertiesToPb(ps: seq<Property>): (r: seq<PbProperty>) {
    if ps == [] then [] else [PropertyToPb(ps[0])] + PropertiesToPb(ps[1..])
  }

  /** A property message without a value is skipped. */
  function PropertiesFromPb(ps: seq<PbProperty>): (r: seq<Property>) {
    if ps == [] then []
    else if PropertyFromPb(ps[0]).Some? then [PropertyFromPb(ps[0]).value] + PropertiesFromPb(ps[1..])
    else PropertiesFromPb(ps[1..])
  }

  // ----- The will -----

  function PushIf(out: seq<PbProperty>, present: bool, p: Property): (r: seq<PbProperty>) {
    if present then out + [PropertyToPb(p)] else out
  }

  /** The fields that are present, in a fixed order, then the user properties. */
  function WillToPb(w: WillProperties): (r: seq<PbProperty>) {
    var p1 := PushIf([], w.delay.Some?, WillDelayInterval(w.delay.GetOr(0)));
    var p2 := PushIf(p1, w.indicator.Some?, PayloadFormatIndicator(w.indicator.GetOr(0)));
    var p3 := PushIf(p2, w.expiry.Some?, MessageExpiryInterval(w.expiry.GetOr(0)));
    var p4 := PushIf(p3, w.contentType.Some?, ContentType(w.contentType.GetOr("")));
    var p5 := PushIf(p4, w.responseTopic.Some?, ResponseTopic(w.responseTopic.GetOr("")));
    var p6 := PushIf(p5, w.correlation.Some?, CorrelationData(w.correlation.GetOr([])));
    p6 + PropertiesToPb(w.user)
  }

  const NO_WILL_PROPERTIES: WillProperties := WillProperties(None, None, None, None, None, None, [])

  function Absorb(w: WillProperties, p: PbProperty): (r: WillProperties) {
    match p.kind
    case None => w
    case Some(k) =>
      match k
      case PbWillDelayInterval(v) => w.(delay := Some(v))
      case PbPayloadFormatIndicator(v) => w.(indicator := Some(FlagOf(v)))
      case PbMessageExpiryInterval(v) => w.(expiry := Some(v))
      case PbContentType(v) => w.(contentType := Some(v))
      case PbResponseTopic(v) => w.(responseTopic := Some(v))
      case PbCorrelationData(v) => w.(correlation := Some(v))
      case PbUserProperty(key, value) => w.(user := w.user + [UserProperty(key, value)])
      case _ => w
  }

  function AbsorbAll(w: WillProperties, ps: seq<PbProperty>): (r: WillProperties)
    decreases ps
  {
    if ps == [] then w else AbsorbAll(Absorb(w, ps[0]), ps[1..])
  }

  function WillFromPb(ps: seq<PbProperty>): (r: WillProperties) { AbsorbAll(NO_WILL_PROPERTIES, ps) }

  /** Collecting the properties of a will, one push after the other. */
  method ConvertWillPropertiesToPb(w: WillProperties) returns (out: seq<PbProperty>)
    ensures out == WillToPb(w)
  {
    out := [];
    if w.delay.Some? {
      out := out + [PropertyToPb(WillDelayInterval(w.delay.value))];
    }
    if w.indicator.Some? {
      out := out + [PropertyToPb(PayloadFormatIndicator(w.indicator.value))];
    }
    if w.expiry.Some? {
      out := out + [PropertyToPb(MessageExpiryInterval(w.expiry.value))];
    }
    if w.contentType.Some? {
      out := out + [PropertyToPb(ContentType(w.contentType.value))];
    }
    if w.responseTopic.Some? {
      out := out + [PropertyToPb(ResponseTopic(w.responseTopic.value))];
    }
    if w.correlation.Some? {
      out := out + [PropertyToPb(CorrelationData(w.correlation.value))];
    }
    out := out + PropertiesToPb(w.user);
  }

  /** Filling in a will from its properties; the last value of a field wins. */
  method ConvertPbToWillProperties(ps: seq<PbProperty>) returns (w: WillProperties)
    ensures w == WillFromPb(ps)
  {
    w := NO_WILL_PROPERTIES;
    assert ps[0..] == ps;
    for i := 0 to |ps|
      invariant AbsorbAll(w, ps[i..]) == WillFromPb(ps)
    {
      assert ps[i..][1..] == ps[i + 1..];
      w := Absorb(w, ps[i]);
    }
  }

  // ----- Packets -----

  function CodesToPb(cs: seq<u8>): (r: seq<u32>) { seq(|cs|, i requires 0 <= i < |cs| => cs[i]) }

  function CodesFromPb(cs: seq<u32>): (r: seq<u8>) { seq(|cs|, i requires 0 <= i < |cs| => ToU8(cs[i])) }

  function Filters3ToPb(fs: seq<Filter3>): (r: seq<PbFilter3>) {
    seq(|fs|, i requires 0 <= i < |fs| => PbFilter3(fs[i].filter, fs[i].qos))
  }

  function Filters3FromPb(fs: seq<PbFilter3>): (r: seq<Filter3>) {
    seq(|fs|, i requires 0 <= i < |fs| => Filter3(fs[i].filter, ToU8(fs[i].qos)))
  }

  function Filters5ToPb(fs: seq<Filter5>): (r: seq<PbFilter5>) {
    seq(|fs|, i requires 0 <= i < |fs| => PbFilter5(fs[i].filter, fs[i].qos, fs[i].noLocal, fs[i].retainAsPublished,
      fs[i].retainHandling))
  }

  function Filters5FromPb(fs: seq<PbFilter5>): (r: seq<Filter5>) {
    seq(|fs|, i requires 0 <= i < |fs| => Filter5(fs[i].filter, ToU8(fs[i].qos), fs[i].noLocal, fs[i].retainAsPublished,
      ToU8(fs[i].retainHandling)))
  }

  function Will3ToPb(w: Option<Will3>): (r: Option<PbWill3>) {
    if w.None? then None else Some(PbWill3(w.value.qos, w.value.retain, w.value.topic, w.value.message))
  }

  function Will3FromPb(w: Option<PbWill3>): (r: Option<Will3>) {
    if w.None? then None else Some(Will3(ToU8(w.value.qos), w.value.retain, w.value.topic, w.value.payload))
  }

  function Will5ToPb(w: Option<Will5>): (r: Option<PbWill5>) {
    if w.None? then None else Some(PbWill5(w.value.qos, w.value.retain, w.value.topic, w.value.message,
      WillToPb(w.value.properties)))
  }

  function Will5FromPb(w: Option<PbWill5>): (r: Option<Will5>) {
    if w.None? then None else Some(Will5(ToU8(w.value.qos), w.value.retain, w.value.topic, w.value.payload,
      WillFromPb(w.value.properties)))
  }

  function IdOrZero(id: Option<u16>): (r: u32) { if id.Some? then id.value else 0 }

  function NonEmpty<T>(s: seq<T>): (r: Option<seq<T>>) { if s == [] then None else Some(s) }

  function ToStream(p: MqttPacket, sequence: nat, direction: int): (r: Option<StreamMessage>) {
    Some(StreamMessage(sequence, direction, Some(PayloadOf(p))))
  }

  function PayloadOf(p: MqttPacket): (r: Payload) {
    match p
    case Version3(q) => V3(Some(ToPb3(q)))
    case Version5(q) => V5(Some(ToPb5(q)))
  }

  function ToPb3(p: Mqtt3): (r: Pb3) {
    match p
    case Connect3(name, version, clean, keepAlive, client, will, username, password) =>
      Connect(client, name, version, clean, keepAlive, username.GetOr(""), password.GetOr([]), Will3ToPb(will))
    case ConnAck3(present, code) => Connack(present, code)
    case Publish3(dup, qos, retain, topic, id, payload) => Publish(topic, payload, qos, retain, dup, IdOrZero(id))
    case PubAck3(id) => Puback(id)
    case PubRec3(id) => Pubrec(id)
    case PubRel3(id) => Pubrel(id)
    case PubComp3(id) => Pubcomp(id)
    case Subscribe3(id, filters) => Subscribe(id, Filters3ToPb(filters))
    case SubAck3(id, codes) => Suback(id, CodesToPb(codes))
    case Unsubscribe3(id, topics) => Unsubscribe(id, topics)
    case UnsubAck3(id) => Unsuback(id)
    case PingReq3 => Pingreq
    case PingResp3 => Pingresp
    case Disconnect3 => Disconnect
  }

  function ToPb5(p: Mqtt5): (r: Pb5) {
    match p
    case Connect5(name, version, keepAlive, client, will, username, password, props, clean) =>
      ConnectV5(client, "MQTT", version, clean, keepAlive, username.GetOr(""), password.GetOr([]), Will5ToPb(will),
        PropertiesToPb(props))
    case ConnAck5(present, code, props) => ConnackV5(present, code, PropertiesToPb(props.GetOr([])))
    case Publish5(topic, qos, dup, retain, id, payload, props) =>
      PublishV5(topic, payload, qos, retain, dup, IdOrZero(id), PropertiesToPb(props))
    case PubAck5(id, code, props) => PubackV5(id, code, PropertiesToPb(props))
    case PubRec5(id, code, props) => PubrecV5(id, code, PropertiesToPb(props))
    case PubRel5(id, code, props) => PubrelV5(id, code, PropertiesToPb(props))
    case PubComp5(id, code, props) => PubcompV5(id, code, PropertiesToPb(props))
    case Subscribe5(id, filters, props) => SubscribeV5(id, Filters5ToPb(filters), PropertiesToPb(props))
    case SubAck5(id, codes, props) => SubackV5(id, CodesToPb(codes), PropertiesToPb(props))
    case Unsubscribe5(id, topics, props) => UnsubscribeV5(id, topics, PropertiesToPb(props))
    case UnsubAck5(id, codes, props) => UnsubackV5(id, CodesToPb(codes), PropertiesToPb(props))
    case PingReq5 => PingreqV5
    case PingResp5 => PingrespV5
    case Disconnect5(code, props) => DisconnectV5(code, PropertiesToPb(props))
    case Auth5(code, props) => AuthV5(code, PropertiesToPb(props))
  }

  function FromStream(m: StreamMessage): (r: Option<MqttPacket>) {
    match m.payload
    case None => None
    case Some(V3(packet)) => if packet.None? then None else Some(Version3(FromPb3(packet.value)))
    case Some(V5(packet)) => if packet.None? then None else Some(Version5(FromPb5(packet.value)))
  }

  function FromPb3(p: Pb3): (r: Mqtt3) {
    match p
    case Connect(client, name, version, clean, keepAlive, username, password, will) =>
      Connect3(name, ToU8(version), clean, ToU16(keepAlive), client, Will3FromPb(will), NonEmpty(username),
        NonEmpty(password))
    case Connack(present, code) => ConnAck3(present, ToU8(code))
    case Publish(topic, payload, qos, retain, dup, id) =>
      Publish3(dup, ToU8(qos), retain, topic, if id == 0 then None else Some(ToU16(id)), payload)
    case Puback(id) => PubAck3(ToU16(id))
    case Pubrec(id) => PubRec3(ToU16(id))
    case Pubrel(id) => PubRel3(ToU16(id))
    case Pubcomp(id) => PubComp3(ToU16(id))
    case Subscribe(id, filters) => Subscribe3(ToU16(id), Filters3FromPb(filters))
    case Suback(id, codes) => SubAck3(ToU16(id), CodesFromPb(codes))
    case Unsubscribe(id, topics) => Unsubscribe3(ToU16(id), topics)
    case Unsuback(id) => UnsubAck3(ToU16(id))
    case Pingreq => PingReq3
    case Pingresp => PingResp3
    case Disconnect => Disconnect3
  }

  function FromPb5(p: Pb5): (r: Mqtt5) {
    match p
    case ConnectV5(client, _, _, clean, keepAlive, username, password, will, props) =>
      Connect5("MQTT", 5, ToU16(keepAlive), client, Will5FromPb(will), NonEmpty(username), NonEmpty(password),
        PropertiesFromPb(props), clean)
    case ConnackV5(present, code, props) => ConnAck5(present, ToU8(code), Some(PropertiesFromPb(props)))
    case PublishV5(topic, payload, qos, retain, dup, id, props) =>
      Publish5(topic, ToU8(qos), dup, retain, Some(ToU16(id)), payload, PropertiesFromPb(props))
    case PubackV5(id, code, props) => PubAck5(ToU16(id), ToU8(code), PropertiesFromPb(props))
    case PubrecV5(id, code, props) => PubRec5(ToU16(id), ToU8(code), PropertiesFromPb(props))
    case PubrelV5(id, code, props) => PubRel5(ToU16(id), ToU8(code), PropertiesFromPb(props))
    case PubcompV5(id, code, props) => PubComp5(ToU16(id), ToU8(code), PropertiesFromPb(props))
    case SubscribeV5(id, filters, props) => Subscribe5(ToU16(id), Filters5FromPb(filters), PropertiesFromPb(props))
    case SubackV5(id, codes, props) => SubAck5(ToU16(id), CodesFromPb(codes), PropertiesFromPb(props))
    case UnsubscribeV5(id, topics, props) => Unsubscribe5(ToU16(id), topics, PropertiesFromPb(props))
    case UnsubackV5(id, codes, props) => UnsubAck5(ToU16(id), CodesFromPb(codes), PropertiesFromPb(props))
    case PingreqV5 => PingReq5
    case PingrespV5 => PingResp5
    case DisconnectV5(code, props) => Disconnect5(ToU8(code), PropertiesFromPb(props))
    case AuthV5(code, props) => Auth5(ToU8(code), PropertiesFromPb(props))
  }

  // ----- Normal forms -----

  /** A boolean property holds 0 or 1. */
  predicate NormalProperty(p: Property) {
    match p
    case PayloadFormatIndicator(v) => v <= 1
    case RequestProblemInformation(v) => v <= 1
    case RequestResponseInformation(v) => v <= 1
    case RetainAvailable(v) => v <= 1
    case WildcardSubscriptionAvailable(v) => v <= 1
    case SubscriptionIdentifierAvailable(v) => v <= 1
    case SharedSubscriptionAvailable(v) => v <= 1
    case _ => true
  }

  predicate NormalProperties(ps: seq<Property>) {
    forall i :: 0 <= i < |ps| ==> NormalProperty(ps[i])
  }

  predicate NormalWill(w: WillProperties) {
    (w.indicator.Some? ==> w.indicator.value <= 1) && forall i :: 0 <= i < |w.user| ==> w.user[i].UserProperty?
  }

  predicate NormalText<T(==)>(s: Option<seq<T>>) { s != Some([]) }

  predicate Normal3(p: Mqtt3) {
    match p
    case Connect3(_, _, _, _, _, _, username, password) => NormalText(username) && NormalText(password)
    case Publish3(_, _, _, _, id, _) => id != Some(0)
    case _ => true
  }

  predicate Normal5(p: Mqtt5) {
    match p
    case Connect5(name, version, _, _, will, username, password, props, _) =>
      && name == "MQTT" && version == 5 && NormalText(username) && NormalText(password) && NormalProperties(props)
      && (will.Some? ==> NormalWill(will.value.properties))
    case ConnAck5(_, _, props) => props.Some? && NormalProperties(props.value)
    case Publish5(_, _, _, _, id, _, props) => id.Some? && NormalProperties(props)
    case PubAck5(_, _, props) => NormalProperties(props)
    case PubRec5(_, _, props) => NormalProperties(props)
    case PubRel5(_, _, props) => NormalProperties(props)
    case PubComp5(_, _, props) => NormalProperties(props)
    case Subscribe5(_, _, props) => NormalProperties(props)
    case SubAck5(_, _, props) => NormalProperties(props)
    case Unsubscribe5(_, _, props) => NormalProperties(props)
    case UnsubAck5(_, _, props) => NormalProperties(props)
    case Disconnect5(_, props) => NormalProperties(props)
    case Auth5(_, props) => NormalProperties(props)
    case PingReq5 => true
    case PingResp5 => true
  }

  /** The packets the conversion carries unchanged. */
  predicate Normal(p: MqttPacket) {
    match p
    case Version3(q) => Normal3(q)
    case Version5(q) => Normal5(q)
  }

  // ----- The round trip -----

  lemma PropertyRoundTrip(p: Property)
    ensures PropertyFromPb(PropertyToPb(p)).Some?
    ensures NormalProperty(PropertyFromPb(PropertyToPb(p)).value)
    ensures PropertyFromPb(PropertyToPb(p)).value == p <==> NormalProperty(p)
  {
  }

  lemma NormalHead(ps: seq<Property>)
    requires ps != []
    ensures NormalProperties(ps) <==> NormalProperty(ps[0]) && NormalProperties(ps[1..])
  {
    if NormalProperties(ps) {
      forall i | 0 <= i < |ps[1..]| ensures NormalProperty(ps[1..][i]) { assert ps[1..][i] == ps[i + 1]; }
    }
    if NormalProperty(ps[0]) && NormalProperties(ps[1..]) {
      forall i | 0 <= i < |ps| ensures NormalProperty(ps[i]) { if i > 0 { assert ps[i] == ps[1..][i - 1]; } }
    }
  }

  lemma {:induction false} PropertiesRoundTrip(ps: seq<Property>)
    ensures |PropertiesFromPb(PropertiesToPb(ps))| == |ps| && NormalProperties(PropertiesFromPb(PropertiesToPb(ps)))
    ensures PropertiesFromPb(PropertiesToPb(ps)) == ps <==> NormalProperties(ps)
  {
    if ps == [] {
    } else {
      var q, rest := PropertyToPb(ps[0]), PropertiesToPb(ps[1..]);
      PropertyRoundTrip(ps[0]);
      PropertiesRoundTrip(ps[1..]);
      assert PropertiesToPb(ps) == [q] + rest && ([q] + rest)[1..] == rest;
      var r := PropertiesFromPb(PropertiesToPb(ps));
      assert r == [PropertyFromPb(q).value] + PropertiesFromPb(rest);
      assert r[1..] == PropertiesFromPb(rest);
      assert ps == [ps[0]] + ps[1..] && r == [r[0]] + r[1..];
      NormalHead(ps);
      NormalHead(r);
    }
  }

  lemma {:induction false} AbsorbAppend(w: WillProperties, ps: seq<PbProperty>, qs: seq<PbProperty>)
    ensures AbsorbAll(w, ps + qs) == AbsorbAll(AbsorbAll(w, ps), qs)
    decreases ps
  {
    if ps == [] {
      assert ps + qs == qs;
    } else {
      assert (ps + qs)[1..] == ps[1..] + qs;
      AbsorbAppend(Absorb(w, ps[0]), ps[1..], qs);
    }
  }

  /** What a property of its own kind does to a will. */
  function Set(w: WillProperties, p: Property): (r: WillProperties) {
    match p
    case WillDelayInterval(v) => w.(delay := Some(v))
    case PayloadFormatIndicator(v) => w.(indicator := Some(FlagOf(v != 0)))
    case MessageExpiryInterval(v) => w.(expiry := Some(v))
    case ContentType(v) => w.(contentType := Some(v))
    case ResponseTopic(v) => w.(responseTopic := Some(v))
    case CorrelationData(v) => w.(correlation := Some(v))
    case UserProperty(_, _) => w.(user := w.user + [p])
    case _ => w
  }

  lemma AbsorbSets(w: WillProperties, p: Property)
    ensures Absorb(w, PropertyToPb(p)) == Set(w, p)
  {
  }

  lemma AbsorbPush(w: WillProperties, ps: seq<PbProperty>, present: bool, p: Property, v: WillProperties)
    requires AbsorbAll(w, ps) == v
    ensures AbsorbAll(w, PushIf(ps, present, p)) == if present then Set(v, p) else v
  {
    if present {
      var q := PropertyToPb(p);
      AbsorbAppend(w, ps, [q]);
      assert [q][1..] == [];
      AbsorbSets(v, p);
    }
  }

  /** The named fields of a will, the indicator as a flag, without its user properties. */
  function Fields(w: WillProperties): (r: WillProperties) {
    w.(indicator := if w.indicator.Some? then Some(FlagOf(w.indicator.value != 0)) else None, user := [])
  }

  lemma FieldsRoundTrip(w: WillProperties)
    ensures WillFromPb(WillToPb(w)) == AbsorbAll(Fields(w), PropertiesToPb(w.user))
  {
    var e := NO_WILL_PROPERTIES;
    var d1 := WillDelayInterval(w.delay.GetOr(0));
    var p1 := PushIf([], w.delay.Some?, d1);
    var w1 := e.(delay := w.delay);
    AbsorbPush(e, [], w.delay.Some?, d1, e);
    assert AbsorbAll(e, p1) == w1;
    var d2 := PayloadFormatIndicator(w.indicator.GetOr(0));
    var p2 := PushIf(p1, w.indicator.Some?, d2);
    var w2 := w1.(indicator := Fields(w).indicator);
    AbsorbPush(e, p1, w.indicator.Some?, d2, w1);
    assert AbsorbAll(e, p2) == w2;
    var d3 := MessageExpiryInterval(w.expiry.GetOr(0));
    var p3 := PushIf(p2, w.expiry.Some?, d3);
    var w3 := w2.(expiry := w.expiry);
    AbsorbPush(e, p2, w.expiry.Some?, d3, w2);
    assert AbsorbAll(e, p3) == w3;
    TextFields(w, p3, w3);
  }

  lemma TextFields(w: WillProperties, p3: seq<PbProperty>, w3: WillProperties)
    requires AbsorbAll(NO_WILL_PROPERTIES, p3) == w3
        && w3 == Fields(w).(contentType := None, responseTopic := None, correlation := None)
    ensures
      var p4 := PushIf(p3, w.contentType.Some?, ContentType(w.contentType.GetOr("")));
      var p5 := PushIf(p4, w.responseTopic.Some?, ResponseTopic(w.responseTopic.GetOr("")));
      var p6 := PushIf(p5, w.correlation.Some?, CorrelationData(w.correlation.GetOr([])));
      AbsorbAll(NO_WILL_PROPERTIES, p6 + PropertiesToPb(w.user)) == AbsorbAll(Fields(w), PropertiesToPb(w.user))
  {
    var e := NO_WILL_PROPERTIES;
    var d4, d5, d6 := ContentType(w.contentType.GetOr("")), ResponseTopic(w.responseTopic.GetOr("")),
      CorrelationData(w.correlation.GetOr([]));
    var p4 := PushIf(p3, w.contentType.Some?, d4);
    var w4 := w3.(contentType := w.contentType);
    AbsorbPush(e, p3, w.contentType.Some?, d4, w3);
    assert AbsorbAll(e, p4) == w4;
    var p5 := PushIf(p4, w.responseTopic.Some?, d5);
    var w5 := w4.(responseTopic := w.responseTopic);
    AbsorbPush(e, p4, w.responseTopic.Some?, d5, w4);
    assert AbsorbAll(e, p5) == w5;
    var p6 := PushIf(p5, w.correlation.Some?, d6);
    AbsorbPush(e, p5, w.correlation.Some?, d6, w5);
    assert AbsorbAll(e, p6) == Fields(w);
    AbsorbAppend(e, p6, PropertiesToPb(w.user));
  }

  predicate OnlyUser(ps: seq<Property>) {
    forall i :: 0 <= i < |ps| ==> ps[i].UserProperty?
  }

  lemma UserHead(ps: seq<Property>)
    requires ps != []
    ensures OnlyUser(ps) <==> ps[0].UserProperty? && OnlyUser(ps[1..])
  {
    if OnlyUser(ps) {
      forall i | 0 <= i < |ps[1..]| ensures ps[1..][i].UserProperty? { assert ps[1..][i] == ps[i + 1]; }
    }
    if ps[0].UserProperty? && OnlyUser(ps[1..]) {
      forall i | 0 <= i < |ps| ensures ps[i].UserProperty? { if i > 0 { assert ps[i] == ps[1..][i - 1]; } }
    }
  }

  lemma SetKeepsNormal(w: WillProperties, p: Property)
    requires NormalWill(w)
    ensures NormalWill(Set(w, p)) && (!p.UserProperty? ==> Set(w, p).user == w.user)
  {
  }

  /** Absorbing the user list keeps user properties in order and loses every other entry from the list. */
  lemma {:induction false} UserRoundTrip(w: WillProperties, ps: seq<Property>)
    requires NormalWill(w)
    ensures
      var r := AbsorbAll(w, PropertiesToPb(ps));
      && NormalWill(r) && |r.user| <= |w.user| + |ps|
      && (|r.user| == |w.user| + |ps| <==> OnlyUser(ps))
      && (OnlyUser(ps) ==> r == w.(user := w.user + ps))
    decreases ps
  {
    if ps == [] {
      assert w.user + ps == w.user;
    } else {
      var q, rest := PropertyToPb(ps[0]), PropertiesToPb(ps[1..]);
      assert PropertiesToPb(ps) == [q] + rest && ([q] + rest)[1..] == rest;
      AbsorbSets(w, ps[0]);
      SetKeepsNormal(w, ps[0]);
      UserRoundTrip(Set(w, ps[0]), ps[1..]);
      UserHead(ps);
      if OnlyUser(ps) { assert w.user + [ps[0]] + ps[1..] == w.user + ps; }
    }
  }

  lemma WillRoundTrip(w: WillProperties)
    ensures NormalWill(WillFromPb(WillToPb(w)))
    ensures WillFromPb(WillToPb(w)) == w <==> NormalWill(w)
  {
    FieldsRoundTrip(w);
    UserRoundTrip(Fields(w), w.user);
    if NormalWill(w) { assert [] + w.user == w.user; }
  }

  lemma CodesRoundTrip(codes: seq<u8>)
    ensures CodesFromPb(CodesToPb(codes)) == codes
  {
  }

  lemma FiltersRoundTrip(f3: seq<Filter3>, f5: seq<Filter5>)
    ensures Filters3FromPb(Filters3ToPb(f3)) == f3 && Filters5FromPb(Filters5ToPb(f5)) == f5
  {
  }

  /** Version 3 packets come back normal, and unchanged exactly when they were. */
  ghost predicate Returns3(p: Mqtt3, r: Mqtt3) {
    r == FromPb3(ToPb3(p)) && Normal3(r) && (r == p <==> Normal3(p))
  }

  ghost predicate Returns5(p: Mqtt5, r: Mqtt5) {
    r == FromPb5(ToPb5(p)) && Normal5(r) && (r == p <==> Normal5(p))
  }

  /** The properties that come back. */
  function Again(ps: seq<Property>): (r: seq<Property>) { PropertiesFromPb(PropertiesToPb(ps)) }

  lemma AcksReturn(id: u16, code: u8, ps: seq<Property>)
    ensures Returns5(PubAck5(id, code, ps), PubAck5(id, code, Again(ps)))
        && Returns5(PubRec5(id, code, ps), PubRec5(id, code, Again(ps)))
  {
    PropertiesRoundTrip(ps);
  }

  lemma ReleasesReturn(id: u16, code: u8, ps: seq<Property>)
    ensures Returns5(PubRel5(id, code, ps), PubRel5(id, code, Again(ps)))
        && Returns5(PubComp5(id, code, ps), PubComp5(id, code, Again(ps)))
  {
    PropertiesRoundTrip(ps);
  }

  lemma DisconnectReturns(code: u8, ps: seq<Property>)
    ensures Returns5(Disconnect5(code, ps), Disconnect5(code, Again(ps)))
  {
    PropertiesRoundTrip(ps);
  }

  lemma AuthReturns(code: u8, ps: seq<Property>)
    ensures Returns5(Auth5(code, ps), Auth5(code, Again(ps)))
  {
    PropertiesRoundTrip(ps);
  }

  lemma SubscriptionsReturn(id: u16, filters: seq<Filter5>, topics: seq<string>, ps: seq<Property>)
    ensures Returns5(Subscribe5(id, filters, ps), Subscribe5(id, filters, Again(ps)))
    ensures Returns5(Unsubscribe5(id, topics, ps), Unsubscribe5(id, topics, Again(ps)))
  {
    PropertiesRoundTrip(ps);
    FiltersRoundTrip([], filters);
  }

  lemma SubAcksReturn(id: u16, codes: seq<u8>, ps: seq<Property>)
    ensures Returns5(SubAck5(id, codes, ps), SubAck5(id, codes, Again(ps)))
        && Returns5(UnsubAck5(id, codes, ps), UnsubAck5(id, codes, Again(ps)))
  {
    PropertiesRoundTrip(ps);
    CodesRoundTrip(codes);
  }

  lemma PublishReturns(topic: string, qos: u8, dup: bool, retain: bool, id: Option<u16>, payload: Bytes,
      ps: seq<Property>)
    ensures Returns5(Publish5(topic, qos, dup, retain, id, payload, ps),
        Publish5(topic, qos, dup, retain, Some(id.GetOr(0)), payload, Again(ps)))
  {
    PropertiesRoundTrip(ps);
  }

  lemma ConnAckReturns(present: bool, code: u8, ps: Option<seq<Property>>)
    ensures Returns5(ConnAck5(present, code, ps), ConnAck5(present, code, Some(Again(ps.GetOr([])))))
  {
    PropertiesRoundTrip(ps.GetOr([]));
  }

  /** An empty text comes back as no text. */
  lemma TextReturns<T>(s: Option<seq<T>>)
    ensures NormalText(NonEmpty(s.GetOr([]))) && (NonEmpty(s.GetOr([])) == s <==> NormalText(s))
  {
  }

  lemma Connect5Returns(name: string, version: u8, keepAlive: u16, client: string, will: Option<Will5>,
                        user: Option<string>, password: Option<Bytes>, ps: seq<Property>, clean: bool)
    ensures
      Returns5(Connect5(name, version, keepAlive, client, will, user, password, ps, clean),
               Connect5("MQTT", 5, keepAlive, client, Will5FromPb(Will5ToPb(will)), NonEmpty(user.GetOr("")),
                 NonEmpty(password.GetOr([])), Again(ps), clean))
  {
    TextReturns(user);
    TextReturns(password);
    PropertiesRoundTrip(ps);
    Will5Returns(will);
  }

  lemma Will5Returns(will: Option<Will5>)
    ensures
      var r := Will5FromPb(Will5ToPb(will));
      && (r.Some? <==> will.Some?) && (r.Some? ==> NormalWill(r.value.properties))
      && (r == will <==> (will.Some? ==> NormalWill(will.value.properties)))
  {
    if will.Some? { WillRoundTrip(will.value.properties); }
  }

  lemma Publish3Returns(dup: bool, qos: u8, retain: bool, topic: string, id: Option<u16>, payload: Bytes)
    ensures Returns3(Publish3(dup, qos, retain, topic, id, payload), Publish3(dup, qos, retain, topic, if id == Some(0)
        then None else id, payload))
  {
  }

  lemma RoundTrip3(p: Mqtt3)
    ensures Returns3(p, FromPb3(ToPb3(p)))
  {
    match p
    case Connect3(_, _, _, _, _, _, user, password) => TextReturns(user); TextReturns(password);
    case Publish3(dup, qos, retain, topic, id, payload) => Publish3Returns(dup, qos, retain, topic, id, payload);
    case Subscribe3(_, filters) => FiltersRoundTrip(filters, []);
    case SubAck3(_, codes) => CodesRoundTrip(codes);
    case _ =>
  }

  lemma RoundTrip5(p: Mqtt5)
    ensures Returns5(p, FromPb5(ToPb5(p)))
  {
    match p
    case Connect5(name, version, keepAlive, client, will, user, password, ps, clean) =>
      Connect5Returns(name, version, keepAlive, client, will, user, password, ps, clean);
    case ConnAck5(present, code, ps) => ConnAckReturns(present, code, ps);
    case Publish5(topic, qos, dup, retain, id, payload, ps) => PublishReturns(topic, qos, dup, retain, id, payload, ps);
    case PubAck5(id, code, ps) => AcksReturn(id, code, ps);
    case PubRec5(id, code, ps) => AcksReturn(id, code, ps);
    case PubRel5(id, code, ps) => ReleasesReturn(id, code, ps);
    case PubComp5(id, code, ps) => ReleasesReturn(id, code, ps);
    case Subscribe5(id, filters, ps) => SubscriptionsReturn(id, filters, [], ps);
    case Unsubscribe5(id, topics, ps) => SubscriptionsReturn(id, [], topics, ps);
    case SubAck5(id, codes, ps) => SubAcksReturn(id, codes, ps);
    case UnsubAck5(id, codes, ps) => SubAcksReturn(id, codes, ps);
    case PingReq5 =>
    case PingResp5 =>
    case Disconnect5(code, ps) => DisconnectReturns(code, ps);
    case Auth5(code, ps) => AuthReturns(code, ps);
  }

  /** The packet that comes back. */
  function Back(p: MqttPacket): (r: Option<MqttPacket>) { FromStream(StreamMessage(0, 0, Some(PayloadOf(p)))) }

  /** Every packet converts to a stream message and back; the result is in normal form; and it is the original
      packet if and only if that was in normal form. */
  lemma RoundTrip(p: MqttPacket, sequence: nat, direction: int)
    ensures
      var m := ToStream(p, sequence, direction);
      && m.Some? && m.value.sequence == sequence && m.value.direction == direction && FromStream(m.value) == Back(p)
      && Back(p).Some? && Normal(Back(p).value) && (Back(p) == Some(p) <==> Normal(p))
  {
    if p.Version3? { RoundTrip3(p.packet3); } else { RoundTrip5(p.packet5); }
  }

  /** So converting twice is the same as converting once. */
  lemma RoundTripTwice(p: MqttPacket)
    ensures Back(p).Some? && Back(Back(p).value) == Back(p)
  {
    RoundTrip(p, 0, 0);
    RoundTrip(Back(p).value, 0, 0);
  }
}
