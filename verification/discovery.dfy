/** `Discovery`: the facade the application talks to. It subscribes to the command and the
    bridge request topics, routes each inbound message to the Home Assistant publisher or
    to the bridge publisher, and forwards each discovery request to one of them. */
module Discovery {
  import opened Strings
  import opened Json
  import opened Collaborators
  import opened DiscoveryBase
  import opened HassCommands
  import opened HassDocuments
  import opened Homeassistant
  import opened Bridge

  /** `subscribeTopic`: every command topic and every bridge request topic. */
  function SubscribeTopic(base: string): (r: seq<string>)
    ensures |r| == 2
  {
    [base + "/cmd/#", base + "/bridge/request/#"]
  }

  /** The routing test of `onMQTTMessage`: the topic contains `<base>/cmd/` anywhere. */
  predicate RoutedToCommands(topic: string, base: string)
  {
    Contains(topic, base + "/cmd/")
  }

  /** Whatever the level names, a topic that starts with `<base>/cmd/` is routed to the
      command path. */
  lemma {:induction false} CommandPrefixRouted(base: string, rest: string)
    ensures RoutedToCommands(base + "/cmd/" + rest, base)
  {
    var t := base + "/cmd/" + rest;
    assert OccursAt(t, base + "/cmd/", 0) by {
      assert t[0..|base + "/cmd/"|] == base + "/cmd/";
    }
  }

  /** The command topic a switch document advertises is subscribed to by the first filter
      and is routed to the command path. */
  lemma {:induction false} SwitchCommandTopicReachesCommands(base: string, deviceType: string, subtype: string, entityTopic: string)
    requires '#' !in base && '+' !in base
    ensures TopicMatches(SubscribeTopic(base)[0], CommandTopic(base, deviceType, subtype, entityTopic))
    ensures RoutedToCommands(CommandTopic(base, deviceType, subtype, entityTopic), base)
  {
    var rest := deviceType + "/" + subtype + "/" + entityTopic + "/set";
    assert CommandTopic(base, deviceType, subtype, entityTopic) == (base + "/cmd") + "/" + rest;
    assert CommandTopic(base, deviceType, subtype, entityTopic) == base + "/cmd/" + rest;
    assert SubscribeTopic(base)[0] == (base + "/cmd") + "/#";
    assert '#' !in base + "/cmd" && '+' !in base + "/cmd" by {
      assert forall c :: c in base + "/cmd" ==> c in base || c in "/cmd";
    }
    MultiLevelWildcardMatches(base + "/cmd", rest);
    CommandPrefixRouted(base, rest);
  }

  /** The topic the log-level selector commands is subscribed to by the second filter and,
      since it holds no `c` after the base, is routed to the bridge. */
  lemma {:induction false} LogLevelTopicReachesBridge(base: string)
    requires '#' !in base && '+' !in base
    ensures TopicMatches(SubscribeTopic(base)[1], LogLevelTopic(base))
    ensures !RoutedToCommands(LogLevelTopic(base), base)
  {
    var p := base + "/bridge/request";
    assert LogLevelTopic(base) == p + "/" + "log_level";
    assert SubscribeTopic(base)[1] == p + "/#";
    assert '#' !in p && '+' !in p by {
      assert forall c :: c in p ==> c in base || c in "/bridge/request";
    }
    MultiLevelWildcardMatches(p, "log_level");
    var tail := "/bridge/request/log_level";
    assert 'c' !in tail;
    NoCommandPrefixAfterBase(base, tail);
  }

  /** `<base>/cmd/` cannot occur in `<base><tail>` when `<tail>` has no `c`: wherever it
      started, its `c` would fall inside `<tail>`. */
  lemma {:induction false} NoCommandPrefixAfterBase(base: string, tail: string)
    requires 'c' !in tail
    ensures !RoutedToCommands(base + tail, base)
  {
    var t := base + tail;
    var pat := base + "/cmd/";
    forall j: nat ensures !OccursAt(t, pat, j) {
      if j + |pat| <= |t| {
        assert t[j..j + |pat|][|base| + 1] == t[j + |base| + 1] == tail[j + 1];
        assert pat[|base| + 1] == 'c';
      }
    }
  }

  /** A discovery request: `device` picks the Home Assistant publisher (the payload is a
      decoded device message) or the bridge publisher (the payload is the bridge info). */
  datatype DiscoveryRequest = DiscoveryRequest(device: bool, payload: JsValue)

  class Discovery {
    const baseTopic: string
    const homeassistant: HomeassistantDiscovery
    const bridge: BridgeDiscovery

    /** Both publishers share the MQTT client and the RF driver; the store belongs to the
        Home Assistant publisher, the logger to the bridge. */
    predicate Wired()
    {
      && homeassistant.mqtt == bridge.mqtt
      && homeassistant.rfxtrx == bridge.rfxtrx
      && homeassistant.settings == bridge.settings
      && baseTopic == homeassistant.settings.base
    }

    constructor(mqtt: MqttClient, rfxtrx: RfxcomDriver, settings: Settings, state: StateStore, logger: Logger)
      ensures Wired()
      ensures baseTopic == settings.base && homeassistant.settings == settings
      ensures homeassistant.mqtt == mqtt && homeassistant.rfxtrx == rfxtrx && homeassistant.state == state
      ensures bridge.logger == logger
      ensures fresh(homeassistant) && fresh(bridge)
      ensures homeassistant.originSw == "" && bridge.originSw == ""
    {
      baseTopic := settings.base;
      homeassistant := new HomeassistantDiscovery(mqtt, rfxtrx, settings, state);
      bridge := new BridgeDiscovery(mqtt, rfxtrx, settings, logger);
    }

    /** `start`: both publishers advertise the software version from now on. */
    method Start(version: string)
      modifies homeassistant, bridge
      ensures homeassistant.originSw == version && bridge.originSw == version
    {
      homeassistant.Start(version);
      bridge.Start(version);
    }

    /** `onMQTTMessage`: a topic containing `<base>/cmd/` is a command for the Home
        Assistant publisher; every other topic goes to the bridge, which acts only on its
        log-level request. */
    method OnMQTTMessage(msg: MqttMessage)
      requires Wired()
      requires homeassistant.state.Valid()
      requires RoutedToCommands(msg.topic, baseTopic) ==> UnitSegmentIsDecimal(msg.topic)
      modifies homeassistant.state, homeassistant.state.records.Values, homeassistant.rfxtrx, homeassistant.mqtt, bridge.logger
      ensures homeassistant.state.Valid()
      ensures RoutedToCommands(msg.topic, baseTopic) ==>
        && homeassistant.state.Contents() == old(homeassistant.state.Contents())[CommandKey(msg) := CommandRecord(old(homeassistant.state.Contents()), msg)]
        && homeassistant.rfxtrx.sent == old(homeassistant.rfxtrx.sent) + [CommandCall(old(homeassistant.state.Contents()), msg)]
        && homeassistant.mqtt.outbox == old(homeassistant.mqtt.outbox) + [CommandStatePublication(homeassistant.settings.devicesTopic, old(homeassistant.state.Contents()), msg)]
        && bridge.logger.level == old(bridge.logger.level)
      ensures homeassistant.state.writes == old(homeassistant.state.writes)
      ensures !RoutedToCommands(msg.topic, baseTopic) ==>
        && homeassistant.state.Contents() == old(homeassistant.state.Contents())
        && homeassistant.rfxtrx.sent == old(homeassistant.rfxtrx.sent)
        && homeassistant.mqtt.outbox == old(homeassistant.mqtt.outbox)
        && bridge.logger.level == (if msg.topic == LogLevelTopic(baseTopic) then Get(msg.json, "log_level") else old(bridge.logger.level))
    {
      if Contains(msg.topic, baseTopic + "/cmd/") {
        homeassistant.OnMQTTMessage(msg);
      } else {
        bridge.OnMQTTMessage(msg);
      }
    }

    /** `publishDiscoveryToMQTT`: a device request publishes the payload's sensor and switch
        documents (and stores the payload); a bridge request publishes the four bridge
        documents. `isGroup` is the driver's verdict on the payload. */
    method PublishDiscoveryToMQTT(request: DiscoveryRequest, isGroup: bool)
      requires Wired()
      requires homeassistant.state.Valid()
      requires request.device ==> WellFormedPayload(request.payload)
      requires !request.device ==> WellFormedBridgeInfo(request.payload)
      modifies homeassistant.state, homeassistant.mqtt
      ensures homeassistant.state.Valid()
      ensures request.device ==>
        && homeassistant.state.Contents() == old(homeassistant.state.Contents())[StoreKey(request.payload, DeriveNames(homeassistant.settings.devices, request.payload, isGroup)) := request.payload.fields]
        && homeassistant.mqtt.outbox == old(homeassistant.mqtt.outbox) + DiscoveryPublications(homeassistant.settings, homeassistant.originSw, request.payload, isGroup)
        && homeassistant.state.writes == old(homeassistant.state.writes) + [StoreWrite(StoreKey(request.payload, DeriveNames(homeassistant.settings.devices, request.payload, isGroup)), "event")]
      ensures !request.device ==>
        && homeassistant.state.Contents() == old(homeassistant.state.Contents())
        && homeassistant.state.writes == old(homeassistant.state.writes)
        && homeassistant.mqtt.outbox == old(homeassistant.mqtt.outbox) + BridgePublications(bridge.settings, bridge.originSw, request.payload)
    {
      if request.device {
        homeassistant.PublishDiscoveryToMQTT(request.payload, isGroup);
      } else {
        bridge.PublishDiscoveryToMQTT(request.payload);
      }
    }
  }
}
