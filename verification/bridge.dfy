/** `BridgeDiscovery`: the four discovery documents that describe the bridge itself
    (coordinator version, bridge version, connection state, log-level selector), and the
    request topic through which the log-level selector changes the logger's level. */
module Bridge {
  import opened Strings
  import opened Json
  import opened Collaborators
  import opened DiscoveryBase

  /** The request topic the log-level selector commands: `<base>/bridge/request/log_level`. */
  function LogLevelTopic(base: string): string
  {
    base + "/bridge/request/log_level"
  }

  /** The levels the selector offers, in the order it offers them. */
  const LogLevels: seq<string> := ["info", "warn", "error", "debug"]

  /** The bridge information handed to `publishDiscoveryToMQTT` is a coordinator record. */
  predicate WellFormedBridgeInfo(info: JsValue)
  {
    Get(info, "coordinator").Obj?
  }

  /** The device every bridge document belongs to: one fixed identifier, named after the
      coordinator's hardware and firmware versions, carrying the software version. */
  function DeviceBridge(info: JsValue, sw: string): JsValue
  {
    var coordinator := Get(info, "coordinator");
    Obj(map["identifiers" := Arr([Str("rfxcom2mqtt_bridge")]),
            "name" := Str(ToJsString(Get(coordinator, "hardwareVersion")) + " " + ToJsString(Get(coordinator, "firmwareVersion"))),
            "sw_version" := Str(sw)])
  }

  /** The part every bridge document shares: available only while every availability topic
      says so, attached to the bridge device, advertising the origin. */
  function BridgeCommon(s: Settings, sw: string, info: JsValue): map<string, JsValue>
  {
    map["availability" := Availability(s),
        "availability_mode" := Str("all"),
        "device" := DeviceBridge(info, sw),
        "origin" := Origin(sw)]
  }

  /** A bridge document: the shared part and the document's own keys. */
  function BridgeDocument(s: Settings, sw: string, info: JsValue, own: map<string, JsValue>): JsValue
  {
    Obj(BridgeCommon(s, sw, info) + own)
  }

  const CoordinatorVersionTopic: string := "sensor/bridge_rfxcom2mqtt_coordinator_version/version/config"
  const VersionTopic: string := "sensor/bridge_rfxcom2mqtt_version/version/config"
  const ConnectionStateTopic: string := "binary_sensor/bridge_rfxcom2mqtt_version/connection_state/config"
  const LogLevelConfigTopic: string := "select/bridge_rfxcom2mqtt_log_level/log_level/config"

  /** The coordinator's firmware version, read from the info topic. */
  function CoordinatorVersionFields(s: Settings): map<string, JsValue>
  {
    map[
      "entity_category" := Str("diagnostic"),
      "icon" := Str("mdi:chip"),
      "name" := Str("Coordinator Version"),
      "object_id" := Str("bridge_rfxcom2mqtt_coordinator_version"),
      "state_topic" := Str(s.base + "/" + s.infoTopic),
      "unique_id" := Str("bridge_rfxcom2mqtt_coordinator_version"),
      "value_template" := Str("{{ value_json.coordinator.firmwareVersion }}")]
  }

  /** The bridge's own version, read from the info topic. */
  function VersionFields(s: Settings): map<string, JsValue>
  {
    map[
      "entity_category" := Str("diagnostic"),
      "name" := Str("Version"),
      "object_id" := Str("bridge_rfxcom2mqtt_version"),
      "state_topic" := Str(s.base + "/" + s.infoTopic),
      "unique_id" := Str("bridge_rfxcom2mqtt_version"),
      "value_template" := Str("{{ value_json.version }}")]
  }

  /** The connection state: a connectivity binary sensor on the will topic. */
  function ConnectionStateFields(s: Settings): map<string, JsValue>
  {
    map[
      "device_class" := Str("connectivity"),
      "entity_category" := Str("diagnostic"),
      "name" := Str("Connection State"),
      "payload_on" := Str("online"),
      "payload_off" := Str("offline"),
      "object_id" := Str("bridge_rfxcom2mqtt_connection_state"),
      "state_topic" := Str(TopicWill(s)),
      "unique_id" := Str("bridge_rfxcom2mqtt_connection_state"),
      "value_template" := Str("{{ value }}")]
  }

  /** The log-level selector: it shows the level from the info topic and commands a new one
      on the log-level request topic. */
  function LogLevelFields(s: Settings): map<string, JsValue>
  {
    map[
      "entity_category" := Str("config"),
      "name" := Str("Log level"),
      "object_id" := Str("bridge_rfxcom2mqtt_log_level"),
      "state_topic" := Str(s.base + "/" + s.infoTopic),
      "command_topic" := Str(LogLevelTopic(s.base)),
      "command_template" := Str("{\"log_level\": \"{{ value }}\" }"),
      "options" := Arr([Str(LogLevels[0]), Str(LogLevels[1]), Str(LogLevels[2]), Str(LogLevels[3])]),
      "unique_id" := Str("bridge_rfxcom2mqtt_log_level"),
      "value_template" := Str("{{ value_json.logLevel | lower }}")]
  }

  /** What `publishDiscoveryToMQTT` publishes for the bridge, in order. */
  function BridgePublications(s: Settings, sw: string, info: JsValue): seq<Publication>
  {
    [DiscoveryPublication(s, CoordinatorVersionTopic, BridgeDocument(s, sw, info, CoordinatorVersionFields(s))),
     DiscoveryPublication(s, VersionTopic, BridgeDocument(s, sw, info, VersionFields(s))),
     DiscoveryPublication(s, ConnectionStateTopic, BridgeDocument(s, sw, info, ConnectionStateFields(s))),
     DiscoveryPublication(s, LogLevelConfigTopic, BridgeDocument(s, sw, info, LogLevelFields(s)))]
  }

  /** Four retained QoS 1 documents under the discovery prefix, on four distinct topics. */
  lemma BridgeTopicsDistinct(s: Settings, sw: string, info: JsValue)
    ensures var ps := BridgePublications(s, sw, info);
      && |ps| == 4
      && AllDiscoveryPublications(s, ps)
      && (forall i, j :: 0 <= i < j < |ps| ==> ps[i].topic != ps[j].topic)
  {
    assert |CoordinatorVersionTopic| == 60 && |VersionTopic| == 48;
    assert |ConnectionStateTopic| == 64 && |LogLevelConfigTopic| == 52;
  }

  /** A document that keeps clear of the shared keys shows them as they are. */
  lemma {:induction false} CommonKept(s: Settings, sw: string, info: JsValue, own: map<string, JsValue>)
    requires "device" !in own && "availability" !in own && "origin" !in own
    ensures var doc := BridgeDocument(s, sw, info, own);
      && Get(doc, "device") == DeviceBridge(info, sw)
      && Get(doc, "availability") == Availability(s)
      && Get(doc, "origin") == Origin(sw)
  {
  }

  /** No document's own keys override the shared ones. */
  lemma OwnKeysClear(s: Settings)
    ensures forall own :: own in {CoordinatorVersionFields(s), VersionFields(s), ConnectionStateFields(s), LogLevelFields(s)} ==>
      "device" !in own && "availability" !in own && "origin" !in own
  {
  }

  /** Each bridge document is attached to the bridge device, available through the will
      topic and advertises the origin. */
  lemma {:induction false} BridgeDocumentsShared(s: Settings, sw: string, info: JsValue)
    ensures var ps := BridgePublications(s, sw, info);
      forall i :: 0 <= i < |ps| ==>
        && Get(ps[i].payload, "device") == DeviceBridge(info, sw)
        && Get(ps[i].payload, "availability") == Availability(s)
        && Get(ps[i].payload, "origin") == Origin(sw)
  {
    var ps := BridgePublications(s, sw, info);
    OwnKeysClear(s);
    forall i | 0 <= i < |ps|
      ensures Get(ps[i].payload, "device") == DeviceBridge(info, sw)
      ensures Get(ps[i].payload, "availability") == Availability(s)
      ensures Get(ps[i].payload, "origin") == Origin(sw)
    {
      if i == 0 {
        CommonKept(s, sw, info, CoordinatorVersionFields(s));
      } else if i == 1 {
        CommonKept(s, sw, info, VersionFields(s));
      } else if i == 2 {
        CommonKept(s, sw, info, ConnectionStateFields(s));
      } else {
        CommonKept(s, sw, info, LogLevelFields(s));
      }
    }
  }

  /** The selector commands exactly the topic the bridge listens to for a new level, and
      offers the four levels; its state is the one the availability does not gate. */
  lemma LogLevelSelectorTargetsBridge(s: Settings, sw: string, info: JsValue)
    ensures var doc := BridgePublications(s, sw, info)[3].payload;
      && Get(doc, "command_topic") == Str(LogLevelTopic(s.base))
      && Get(doc, "options") == Arr(seq(|LogLevels|, i requires 0 <= i < |LogLevels| => Str(LogLevels[i])))
  {
  }

  /** The connection state sensor reads the same topic the availability of every bridge
      document is tied to. */
  lemma ConnectionStateIsAvailability(s: Settings, sw: string, info: JsValue)
    ensures Get(BridgePublications(s, sw, info)[2].payload, "state_topic") == Str(TopicWill(s))
    ensures Get(BridgePublications(s, sw, info)[2].payload, "payload_on") == Str("online")
    ensures Get(BridgePublications(s, sw, info)[2].payload, "payload_off") == Str("offline")
    ensures Availability(s) == Arr([Obj(map["topic" := Str(TopicWill(s))])])
  {
    var own := ConnectionStateFields(s);
    assert BridgePublications(s, sw, info)[2].payload == BridgeDocument(s, sw, info, own);
    OwnKept(s, sw, info, own, "state_topic");
    OwnKept(s, sw, info, own, "payload_on");
    OwnKept(s, sw, info, own, "payload_off");
  }

  /** A document's own keys show as they are. */
  lemma OwnKept(s: Settings, sw: string, info: JsValue, own: map<string, JsValue>, key: string)
    requires key in own
    ensures Get(BridgeDocument(s, sw, info, own), key) == own[key]
  {
  }

  /** The device name is the coordinator's two versions, separated by one space. */
  lemma BridgeDeviceName(info: JsValue, sw: string, hardware: string, firmware: string)
    requires Get(Get(info, "coordinator"), "hardwareVersion") == Str(hardware)
    requires Get(Get(info, "coordinator"), "firmwareVersion") == Str(firmware)
    ensures Get(DeviceBridge(info, sw), "name") == Str(hardware + " " + firmware)
    ensures Get(DeviceBridge(info, sw), "sw_version") == Str(sw)
  {
  }

  class BridgeDiscovery {
    const settings: Settings
    const mqtt: MqttClient
    const rfxtrx: RfxcomDriver
    /** The process-wide logger the level requests act on. */
    const logger: Logger
    /** `discoveryOrigin.sw`, empty until `start`. */
    var originSw: string

    constructor(mqtt: MqttClient, rfxtrx: RfxcomDriver, settings: Settings, logger: Logger)
      ensures this.mqtt == mqtt && this.rfxtrx == rfxtrx && this.settings == settings && this.logger == logger
      ensures originSw == ""
    {
      this.mqtt := mqtt;
      this.rfxtrx := rfxtrx;
      this.settings := settings;
      this.logger := logger;
      originSw := "";
    }

    /** `start`: the origin advertises the software version from now on. */
    method Start(version: string)
      modifies this
      ensures originSw == version
    {
      originSw := version;
    }

    /** `onMQTTMessage`: a message on exactly the log-level request topic sets the logger's
        level to the body's `log_level` (undefined when the body has none); any other topic
        changes nothing. */
    method OnMQTTMessage(msg: MqttMessage)
      modifies logger
      ensures msg.topic == LogLevelTopic(settings.base) ==> logger.level == Get(msg.json, "log_level")
      ensures msg.topic != LogLevelTopic(settings.base) ==> logger.level == old(logger.level)
    {
      if msg.topic == settings.base + "/bridge/request/log_level" {
        logger.SetLevel(Get(msg.json, "log_level"));
      }
    }

    /** `publishDiscoveryToMQTT`: the four bridge documents, in order. */
    method PublishDiscoveryToMQTT(info: JsValue)
      requires WellFormedBridgeInfo(info)
      modifies mqtt
      ensures mqtt.outbox == old(mqtt.outbox) + BridgePublications(settings, originSw, info)
    {
      PublishDiscovery(mqtt, settings, CoordinatorVersionTopic, BridgeDocument(settings, originSw, info, CoordinatorVersionFields(settings)));
      PublishDiscovery(mqtt, settings, VersionTopic, BridgeDocument(settings, originSw, info, VersionFields(settings)));
      PublishDiscovery(mqtt, settings, ConnectionStateTopic, BridgeDocument(settings, originSw, info, ConnectionStateFields(settings)));
      PublishDiscovery(mqtt, settings, LogLevelConfigTopic, BridgeDocument(settings, originSw, info, LogLevelFields(settings)));
    }
  }
}
