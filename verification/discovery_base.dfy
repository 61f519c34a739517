/** What `AbstractDiscovery` shares between the Home Assistant and the bridge publishers:
    the settings, the origin descriptor every document advertises, and the single publish
    primitive for discovery documents. */
module DiscoveryBase {
  import opened Strings
  import opened Json
  import opened Collaborators

  /** A configured unit of a device (`units[]` in the device settings). */
  datatype UnitConf = UnitConf(unitCode: int, name: Option<string>)

  /** A configured device (`rfxcom.devices[]`). */
  datatype DeviceConf = DeviceConf(id: string, name: Option<string>, friendlyName: Option<string>, units: Option<seq<UnitConf>>)

  /** The topic names and the Home Assistant settings the engine is built with. */
  datatype Settings = Settings(
    base: string,             // mqtt.topics.base
    devicesTopic: string,     // mqtt.topics.devices
    willTopic: string,        // mqtt.topics.will
    infoTopic: string,        // mqtt.topics.info
    discoveryTopic: string,   // homeassistant.discovery_topic
    discoveryDevice: string,  // homeassistant.discovery_device
    devices: seq<DeviceConf>) // rfxcom.devices

  /** JavaScript truthiness of an optional string. */
  predicate Truthy(o: Option<string>)
  {
    o.Some? && o.value != ""
  }

  /** `topicWill`: `<base>/<will>`. */
  function TopicWill(s: Settings): string
  {
    s.base + "/" + s.willTopic
  }

  /** `topicDevice`: `<base>/<devices>`. */
  function TopicDevice(s: Settings): string
  {
    s.base + "/" + s.devicesTopic
  }

  /** `discoveryOrigin`, with the software version `sw` resolved at start ("" before). */
  function Origin(sw: string): JsValue
  {
    Obj(map["name" := Str("Rfxcom2MQTT"), "sw" := Str(sw), "url" := Str("https://sguernion.github.io/rfxcom2mqtt/")])
  }

  /** `[{topic: topicWill}]`. */
  function Availability(s: Settings): JsValue
  {
    Arr([Obj(map["topic" := Str(TopicWill(s))])])
  }

  /** The publication `publishDiscovery(topic, payload)` makes. */
  function DiscoveryPublication(s: Settings, topic: string, payload: JsValue): Publication
  {
    Publication(topic, payload, true, 1, Some(s.discoveryTopic))
  }

  /** A discovery document: retained, QoS 1, under the discovery topic prefix. */
  predicate IsDiscoveryPublication(s: Settings, p: Publication)
  {
    p.retain && p.qos == 1 && p.base == Some(s.discoveryTopic)
  }

  predicate AllDiscoveryPublications(s: Settings, ps: seq<Publication>)
  {
    forall i :: 0 <= i < |ps| ==> IsDiscoveryPublication(s, ps[i])
  }

  /** `publishDiscovery(topic, payload)`: the single choke point for discovery documents. */
  method PublishDiscovery(mqtt: MqttClient, s: Settings, topic: string, payload: JsValue)
    modifies mqtt
    ensures mqtt.outbox == old(mqtt.outbox) + [DiscoveryPublication(s, topic, payload)]
    ensures IsDiscoveryPublication(s, mqtt.outbox[|mqtt.outbox| - 1])
  {
    mqtt.Publish(topic, payload, true, 1, Some(s.discoveryTopic));
  }
}
