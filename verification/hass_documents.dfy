/** The documents `HomeassistantDiscovery` publishes for a decoded device payload: the names
    it derives (identifiers, topics, aliases), the switch document of a lighting device and
    the sensor documents, one per measured field the payload carries. */
module HassDocuments {
  import opened Strings
  import opened Json
  import opened Collaborators
  import opened DiscoveryBase
  import opened HassCommands

  // ---------------------------------------------------------------------------
  // The payload

  /** What the publisher relies on in a decoded payload: an object whose `id` is a string
      (`id.replace` fails on anything else) and whose `unitCode`, when present, is a number
      (`parseInt` is modelled on numbers only). */
  predicate WellFormedPayload(payload: JsValue)
  {
    payload.Obj? && Get(payload, "id").Str?
    && (Get(payload, "unitCode").Undefined? || Get(payload, "unitCode").Num?)
  }

  // ---------------------------------------------------------------------------
  // Configuration lookups

  /** `devicesConfig.find(dev => dev.id === id)`, as an index: the first device with that id. */
  function FirstDeviceIndex(devices: seq<DeviceConf>, id: string, from: nat): (r: Option<nat>)
    requires from <= |devices|
    ensures r.Some? ==> from <= r.value < |devices| && devices[r.value].id == id
    ensures r.Some? ==> forall j :: from <= j < r.value ==> devices[j].id != id
    ensures r.None? ==> forall j :: from <= j < |devices| ==> devices[j].id != id
    decreases |devices| - from
  {
    if from == |devices| then None
    else if devices[from].id == id then Some(from)
    else FirstDeviceIndex(devices, id, from + 1)
  }

  function FindDevice(devices: seq<DeviceConf>, id: string): Option<DeviceConf>
  {
    match FirstDeviceIndex(devices, id, 0)
    case None => None
    case Some(i) => Some(devices[i])
  }

  /** A configured unit that renames the entity topic of unit `unitCode`: the codes are equal
      as numbers and the unit has a non-empty name. */
  predicate UnitMatches(unit: UnitConf, unitCode: int)
  {
    unit.unitCode == unitCode && Truthy(unit.name)
  }

  /** The last matching unit: the `forEach` over the units lets every match overwrite the
      topic, so the last one wins. */
  function LastUnitIndex(units: seq<UnitConf>, unitCode: int): (r: Option<nat>)
    ensures r.Some? ==> r.value < |units| && UnitMatches(units[r.value], unitCode)
    ensures r.Some? ==> forall j :: r.value < j < |units| ==> !UnitMatches(units[j], unitCode)
    ensures r.None? ==> forall j :: 0 <= j < |units| ==> !UnitMatches(units[j], unitCode)
  {
    if |units| == 0 then None
    else if UnitMatches(units[|units| - 1], unitCode) then Some(|units| - 1)
    else LastUnitIndex(units[..|units| - 1], unitCode)
  }

  /** The entity topic after the unit aliases have been applied to `topic`. */
  function UnitTopic(units: seq<UnitConf>, unitCode: int, topic: string): string
  {
    match LastUnitIndex(units, unitCode)
    case None => topic
    case Some(i) => units[i].name.value
  }

  /** Extending the units by one: a matching unit takes over, any other leaves the topic. */
  lemma UnitTopicSnoc(units: seq<UnitConf>, unit: UnitConf, unitCode: int, topic: string)
    ensures UnitTopic(units + [unit], unitCode, topic)
         == if UnitMatches(unit, unitCode) then unit.name.value else UnitTopic(units, unitCode, topic)
  {
    assert (units + [unit])[..|units|] == units;
  }

  // ---------------------------------------------------------------------------
  // Names

  /** The names `publishDiscoveryToMQTT` derives for a payload. */
  datatype Names = Names(
    deviceId: string,     // <subTypeValue>_<id without its first "0x">
    deviceName: string,   // the friendly name, or deviceId
    deviceTopic: string,  // the device alias, or the id
    entityId: string,     // deviceId, with _<unitCode> for a unit
    entityName: string,   // the id, with _<unitCode> for a unit; never aliased
    entityTopic: string)  // deviceTopic with /<unitCode> for a unit, or the unit alias

  /** Whether the unit suffixes apply: a unit code is present and the payload is no group. */
  predicate HasUnit(payload: JsValue, isGroup: bool)
  {
    Get(payload, "unitCode") != Undefined && !isGroup
  }

  function UnitSuffix(payload: JsValue, isGroup: bool, sep: string): string
  {
    if HasUnit(payload, isGroup) then sep + ToJsString(Get(payload, "unitCode")) else ""
  }

  /** The device alias: the configured name of the first device with the payload's id. */
  function DeviceAlias(devices: seq<DeviceConf>, id: string): Option<string>
  {
    var conf := FindDevice(devices, id);
    if conf.Some? && conf.value.name.Some? then conf.value.name else None
  }

  function DeriveNames(devices: seq<DeviceConf>, payload: JsValue, isGroup: bool): Names
    requires WellFormedPayload(payload)
  {
    var id := Get(payload, "id").s;
    var deviceId := ToJsString(Get(payload, "subTypeValue")) + "_" + ReplaceFirst(id, "0x", "");
    var conf := FindDevice(devices, id);
    var alias := DeviceAlias(devices, id);
    var deviceTopic := if alias.Some? then alias.value else id;
    var topic := deviceTopic + UnitSuffix(payload, isGroup, "/");
    var entityTopic :=
      if HasUnit(payload, isGroup) && conf.Some? && conf.value.units.Some?
      then UnitTopic(conf.value.units.value, Get(payload, "unitCode").n, topic)
      else topic;
    var deviceName := if conf.Some? && Truthy(conf.value.friendlyName) then conf.value.friendlyName.value else deviceId;
    Names(deviceId, deviceName, deviceTopic, deviceId + UnitSuffix(payload, isGroup, "_"),
          id + UnitSuffix(payload, isGroup, "_"), entityTopic)
  }

  /** The key the payload is stored under: the entity name, the type and the subtype. */
  function StoreKey(payload: JsValue, n: Names): StateKey
  {
    StateKey(Str(n.entityName), Get(payload, "type"), Get(payload, "subtype"))
  }

  /** The device identifiers: `<prefix>_<deviceId>` and `<prefix>_<deviceName>`. */
  function DeviceEntity(prefix: string, deviceId: string, deviceName: string): JsValue
  {
    Obj(map["identifiers" := Arr([Str(prefix + "_" + deviceId), Str(prefix + "_" + deviceName)]),
            "name" := Str(deviceName)])
  }

  /** Only the first `0x` is removed from the id, wherever it stands; a later one stays. */
  lemma {:induction false} HexPrefixStripped(devices: seq<DeviceConf>, payload: JsValue, isGroup: bool, before: string, after: string)
    requires WellFormedPayload(payload) && Get(payload, "id").s == before + "0x" + after
    requires forall j: nat :: j < |before| ==> !OccursAt(before + "0x" + after, "0x", j)
    ensures DeriveNames(devices, payload, isGroup).deviceId == ToJsString(Get(payload, "subTypeValue")) + "_" + before + after
  {
    ReplaceFirstAt(before, "0x", after, "");
    assert before + "" + after == before + after;
  }

  /** An id without `0x` is used as it is. */
  lemma IdWithoutHexPrefix(devices: seq<DeviceConf>, payload: JsValue, isGroup: bool)
    requires WellFormedPayload(payload)
    requires forall j :: !OccursAt(Get(payload, "id").s, "0x", j)
    ensures DeriveNames(devices, payload, isGroup).deviceId == ToJsString(Get(payload, "subTypeValue")) + "_" + Get(payload, "id").s
  {
    ReplaceFirstAbsent(Get(payload, "id").s, "0x", "");
  }

  /** The entity name is the id with the unit suffix: neither alias touches it, and the
      device id, device topic and entity id are the same whatever the units configure. */
  lemma EntityNameNeverAliased(devices: seq<DeviceConf>, payload: JsValue, isGroup: bool)
    requires WellFormedPayload(payload)
    ensures var n := DeriveNames(devices, payload, isGroup);
      && n.entityName == Get(payload, "id").s + UnitSuffix(payload, isGroup, "_")
      && n.entityId == n.deviceId + UnitSuffix(payload, isGroup, "_")
      && n.deviceTopic == (if DeviceAlias(devices, Get(payload, "id").s).Some? then DeviceAlias(devices, Get(payload, "id").s).value else Get(payload, "id").s)
  {
  }

  /** The configured units only ever change the entity topic. */
  lemma UnitAliasOnlyChangesTopic(devices1: seq<DeviceConf>, devices2: seq<DeviceConf>, payload: JsValue, isGroup: bool)
    requires WellFormedPayload(payload)
    requires |devices1| == |devices2|
    requires forall i :: 0 <= i < |devices1| ==>
      devices1[i].id == devices2[i].id && devices1[i].name == devices2[i].name && devices1[i].friendlyName == devices2[i].friendlyName
    ensures var n1 := DeriveNames(devices1, payload, isGroup);
      var n2 := DeriveNames(devices2, payload, isGroup);
      n1.(entityTopic := n2.entityTopic) == n2
  {
    var id := Get(payload, "id").s;
    SameIdsSameIndex(devices1, devices2, id, 0);
  }

  /** The friendly name is the device name when it is non-empty, and the device id
      otherwise; it changes no other name. */
  lemma {:induction false} FriendlyNameOnlyChangesDeviceName(devices1: seq<DeviceConf>, devices2: seq<DeviceConf>, payload: JsValue, isGroup: bool)
    requires WellFormedPayload(payload)
    requires |devices1| == |devices2|
    requires forall i :: 0 <= i < |devices1| ==>
      devices1[i].id == devices2[i].id && devices1[i].name == devices2[i].name && devices1[i].units == devices2[i].units
    ensures var n1 := DeriveNames(devices1, payload, isGroup);
      var n2 := DeriveNames(devices2, payload, isGroup);
      n1.(deviceName := n2.deviceName) == n2
    ensures var n := DeriveNames(devices1, payload, isGroup);
      var conf := FindDevice(devices1, Get(payload, "id").s);
      n.deviceName == if conf.Some? && Truthy(conf.value.friendlyName) then conf.value.friendlyName.value else n.deviceId
  {
    SameIdsSameIndex(devices1, devices2, Get(payload, "id").s, 0);
  }

  lemma {:induction false} SameIdsSameIndex(devices1: seq<DeviceConf>, devices2: seq<DeviceConf>, id: string, from: nat)
    requires from <= |devices1| == |devices2|
    requires forall i :: 0 <= i < |devices1| ==> devices1[i].id == devices2[i].id
    ensures FirstDeviceIndex(devices1, id, from) == FirstDeviceIndex(devices2, id, from)
    decreases |devices1| - from
  {
    if from < |devices1| && devices1[from].id != id {
      SameIdsSameIndex(devices1, devices2, id, from + 1);
    }
  }

  /** For a group the unit code is ignored altogether. */
  lemma GroupIgnoresUnitCode(devices: seq<DeviceConf>, payload: JsValue, unitCode: JsValue)
    requires WellFormedPayload(payload)
    requires unitCode.Undefined? || unitCode.Num?
    ensures var other := Obj(payload.fields["unitCode" := unitCode]);
      DeriveNames(devices, other, true) == DeriveNames(devices, payload, true)
  {
    var other := Obj(payload.fields["unitCode" := unitCode]);
    assert Get(other, "id") == Get(payload, "id");
    assert Get(other, "subTypeValue") == Get(payload, "subTypeValue");
  }

  /** Without a configured unit alias, the entity topic of a unit is the device topic
      followed by `/<unitCode>`, and without a unit it is the device topic. */
  lemma EntityTopicShape(devices: seq<DeviceConf>, payload: JsValue, isGroup: bool)
    requires WellFormedPayload(payload)
    requires var conf := FindDevice(devices, Get(payload, "id").s);
      HasUnit(payload, isGroup) && conf.Some? && conf.value.units.Some?
      ==> LastUnitIndex(conf.value.units.value, Get(payload, "unitCode").n).None?
    ensures var n := DeriveNames(devices, payload, isGroup);
      n.entityTopic == n.deviceTopic + UnitSuffix(payload, isGroup, "/")
  {
  }

  /** A matching unit alias replaces the entity topic. */
  lemma UnitAliasReplacesTopic(devices: seq<DeviceConf>, payload: JsValue, isGroup: bool, k: nat)
    requires WellFormedPayload(payload) && HasUnit(payload, isGroup)
    requires var conf := FindDevice(devices, Get(payload, "id").s);
      conf.Some? && conf.value.units.Some? && k < |conf.value.units.value|
      && UnitMatches(conf.value.units.value[k], Get(payload, "unitCode").n)
      && forall j :: k < j < |conf.value.units.value| ==> !UnitMatches(conf.value.units.value[j], Get(payload, "unitCode").n)
    ensures DeriveNames(devices, payload, isGroup).entityTopic
         == FindDevice(devices, Get(payload, "id").s).value.units.value[k].name.value
  {
    var units := FindDevice(devices, Get(payload, "id").s).value.units.value;
    var r := LastUnitIndex(units, Get(payload, "unitCode").n);
    assert r.Some?;
    assert r.value == k;
  }

  // ---------------------------------------------------------------------------
  // The switch document

  function SwitchDocument(s: Settings, sw: string, payload: JsValue, device: JsValue, entityTopic: string, prefix: string, entityId: string, isGroup: bool): JsValue
  {
    var stateOff := if isGroup then "Group off" else "Off";
    var stateOn := if isGroup then "Group On" else "On";
    var name := if isGroup then entityId + "_group" else entityId;
    Obj(map[
      "availability" := Availability(s),
      "device" := device,
      "enabled_by_default" := Bool(true),
      "payload_off" := Str(stateOff),
      "payload_on" := Str(stateOn),
      "json_attributes_topic" := Str(TopicDevice(s) + "/" + entityTopic),
      "command_topic" := Str(CommandTopic(s.base, ToJsString(Get(payload, "type")), ToJsString(Get(payload, "subtype")), entityTopic)),
      "name" := Str(name),
      "object_id" := Str(entityId),
      "origin" := Origin(sw),
      "state_off" := Str(stateOff),
      "state_on" := Str(stateOn),
      "state_topic" := Str(TopicDevice(s) + "/" + entityTopic),
      "unique_id" := Str(entityId + "_" + prefix),
      "value_template" := Str("{{ value_json.command }}")])
  }

  /** What `publishDiscoverySwitchToMQTT` publishes: one switch for a lighting device
      (lighting4 excluded), nothing otherwise. */
  function SwitchPublications(s: Settings, sw: string, payload: JsValue, device: JsValue, entityTopic: string, prefix: string, entityId: string, isGroup: bool): seq<Publication>
  {
    if IsLightingFamily(Get(payload, "type"))
    then [DiscoveryPublication(s, "switch/" + entityTopic + "/config", SwitchDocument(s, sw, payload, device, entityTopic, prefix, entityId, isGroup))]
    else []
  }

  /** Exactly one switch document for the lighting families, at `switch/<entityTopic>/config`,
      and none for any other type. */
  lemma SwitchPresence(s: Settings, sw: string, payload: JsValue, device: JsValue, entityTopic: string, prefix: string, entityId: string, isGroup: bool)
    ensures var ps := SwitchPublications(s, sw, payload, device, entityTopic, prefix, entityId, isGroup);
      && (|ps| == 1 <==> IsLightingFamily(Get(payload, "type")))
      && (|ps| == 0 <==> !IsLightingFamily(Get(payload, "type")))
      && (|ps| == 1 ==>
            && ps[0].topic == "switch/" + entityTopic + "/config"
            && ps[0].payload == SwitchDocument(s, sw, payload, device, entityTopic, prefix, entityId, isGroup)
            && IsDiscoveryPublication(s, ps[0]))
  {
  }

  /** A group switch gets the group labels and a name ending in `_group`; a unit switch the
      plain labels and the entity id as name. Both report on the entity's state topic. */
  lemma SwitchLabels(s: Settings, sw: string, payload: JsValue, device: JsValue, entityTopic: string, prefix: string, entityId: string, isGroup: bool)
    ensures var doc := SwitchDocument(s, sw, payload, device, entityTopic, prefix, entityId, isGroup);
      && Get(doc, "payload_on") == Get(doc, "state_on") == Str(if isGroup then "Group On" else "On")
      && Get(doc, "payload_off") == Get(doc, "state_off") == Str(if isGroup then "Group off" else "Off")
      && Get(doc, "name") == Str(if isGroup then entityId + "_group" else entityId)
  {
    var doc := SwitchDocument(s, sw, payload, device, entityTopic, prefix, entityId, isGroup);
    assert doc.fields["payload_on"] == doc.fields["state_on"];
    assert doc.fields["payload_off"] == doc.fields["state_off"];
  }

  /** The switch is identified by the entity id and the discovery prefix, and reports on the
      entity's topic below the devices topic. */
  lemma SwitchTopics(s: Settings, sw: string, payload: JsValue, device: JsValue, entityTopic: string, prefix: string, entityId: string, isGroup: bool)
    ensures var doc := SwitchDocument(s, sw, payload, device, entityTopic, prefix, entityId, isGroup);
      && Get(doc, "unique_id") == Str(entityId + "_" + prefix)
      && Get(doc, "object_id") == Str(entityId)
      && Get(doc, "state_topic") == Get(doc, "json_attributes_topic") == Str(TopicDevice(s) + "/" + entityTopic)
      && Get(doc, "command_topic") == Str(CommandTopic(s.base, ToJsString(Get(payload, "type")), ToJsString(Get(payload, "subtype")), entityTopic))
  {
  }

  /** The command topic a switch advertises leads back to it: the command handler parses it
      into the payload's type and subtype and the switch's entity topic, and, when neither
      alias applies, into the entity name the payload was stored under. */
  lemma SwitchCommandTopicParses(s: Settings, sw: string, payload: JsValue, isGroup: bool, entity: string)
    requires WellFormedPayload(payload)
    requires var n := DeriveNames(s.devices, payload, isGroup);
      && '/' !in s.base && '/' !in ToJsString(Get(payload, "type")) && '/' !in ToJsString(Get(payload, "subtype"))
      && '/' !in entity && n.entityTopic == entity + UnitSuffix(payload, isGroup, "/")
      && (HasUnit(payload, isGroup) ==> Get(payload, "unitCode").n >= 0)
    ensures var n := DeriveNames(s.devices, payload, isGroup);
      var topic := CommandTopic(s.base, ToJsString(Get(payload, "type")), ToJsString(Get(payload, "subtype")), n.entityTopic);
      && UnitSegmentIsDecimal(topic)
      && ParseCommandTopic(topic).deviceType == Str(ToJsString(Get(payload, "type")))
      && ParseCommandTopic(topic).subtype == Str(ToJsString(Get(payload, "subtype")))
      && ParseCommandTopic(topic).entityTopic == Str(n.entityTopic)
      && (entity == Get(payload, "id").s ==> ParseCommandTopic(topic).entityName == Str(n.entityName))
  {
    var n := DeriveNames(s.devices, payload, isGroup);
    var unitCode: Option<nat> := if HasUnit(payload, isGroup) then Some(Get(payload, "unitCode").n) else None;
    if HasUnit(payload, isGroup) {
      var u: nat := Get(payload, "unitCode").n;
      assert ToJsString(Get(payload, "unitCode")) == NatToString(u);
      assert n.entityTopic == UnitEntityTopic(entity, unitCode);
      assert entity == Get(payload, "id").s ==> n.entityName == UnitEntityName(entity, unitCode);
    } else {
      assert n.entityTopic == entity + "";
      assert n.entityTopic == UnitEntityTopic(entity, unitCode);
    }
    CommandTopicRoundTrip(s.base, ToJsString(Get(payload, "type")), ToJsString(Get(payload, "subtype")), entity, unitCode);
  }

  /** A switch whose entity topic holds no `/` (a unit alias, or a device without a unit)
      gets its command topic back as that entity topic; the handler then also takes the
      topic as the entity name, whatever name the payload was stored under. */
  lemma AliasedSwitchCommandTopicParses(s: Settings, sw: string, payload: JsValue, isGroup: bool)
    requires WellFormedPayload(payload)
    requires var n := DeriveNames(s.devices, payload, isGroup);
      '/' !in s.base && '/' !in ToJsString(Get(payload, "type")) && '/' !in ToJsString(Get(payload, "subtype"))
      && '/' !in n.entityTopic
    ensures var n := DeriveNames(s.devices, payload, isGroup);
      var topic := CommandTopic(s.base, ToJsString(Get(payload, "type")), ToJsString(Get(payload, "subtype")), n.entityTopic);
      && UnitSegmentIsDecimal(topic)
      && ParseCommandTopic(topic)
         == CommandTarget(Str(ToJsString(Get(payload, "type"))), Str(ToJsString(Get(payload, "subtype"))), Str(n.entityTopic), Str(n.entityTopic))
  {
    var n := DeriveNames(s.devices, payload, isGroup);
    CommandTopicRoundTrip(s.base, ToJsString(Get(payload, "type")), ToJsString(Get(payload, "subtype")), n.entityTopic, None);
  }

  /** As written, a command to a unit-aliased switch is keyed on the alias: unit 3 of device
      `0x1`, aliased `kitchen`, is stored under `0x1_3` by discovery, but its command topic
      parses to the entity name `kitchen`. */
  lemma UnitAliasCommandKeyDiffers(s: Settings, sw: string)
    requires s.base == "rfxcom2mqtt"
    requires s.devices == [DeviceConf("0x1", None, None, Some([UnitConf(3, Some("kitchen"))]))]
    ensures var payload := Obj(map["id" := Str("0x1"), "unitCode" := Num(3), "type" := Str("lighting2"), "subtype" := Str("AC")]);
      var n := DeriveNames(s.devices, payload, false);
      var topic := CommandTopic(s.base, "lighting2", "AC", n.entityTopic);
      && n.entityName == "0x1_3" && n.entityTopic == "kitchen"
      && UnitSegmentIsDecimal(topic)
      && ParseCommandTopic(topic).entityName == Str("kitchen")
      && ParseCommandTopic(topic).entityName != Str(n.entityName)
  {
    var payload := Obj(map["id" := Str("0x1"), "unitCode" := Num(3), "type" := Str("lighting2"), "subtype" := Str("AC")]);
    var n := DeriveNames(s.devices, payload, false);
    assert FirstDeviceIndex(s.devices, "0x1", 0) == Some(0);
    assert LastUnitIndex([UnitConf(3, Some("kitchen"))], 3) == Some(0);
    assert ToJsString(Num(3)) == "3";
    assert n.entityTopic == "kitchen";
    AliasedSwitchCommandTopicParses(s, sw, payload, false);
  }

  // ---------------------------------------------------------------------------
  // The sensor documents

  /** One entry of the sensor registry: the payload field that triggers it, the key its
      topic and unique id use, the object id suffix, the caption after the device name, and
      the attributes that differ from sensor to sensor. */
  datatype SensorSpec = SensorSpec(field: string, key: string, objectSuffix: string, caption: string, attrs: map<string, JsValue>)

  /** The ten sensors, in the order they are published. */
  const Sensors: seq<SensorSpec> := [
    SensorSpec("rssi", "linkquality", "_linkquality", "Linkquality", map[
      "enabled_by_default" := Bool(false), "entity_category" := Str("diagnostic"),
      "device_class" := Str("signal_strength"), "icon" := Str("mdi:signal"),
      "state_class" := Str("measurement"), "unit_of_measurement" := Str("dBm")]),
    SensorSpec("batteryLevel", "battery", "__battery", "Batterie", map[
      "device_class" := Str("battery"), "enabled_by_default" := Bool(true), "icon" := Str("mdi:battery"),
      "state_class" := Str("measurement"), "unit_of_measurement" := Str("%")]),
    SensorSpec("batteryVoltage", "voltage", "__voltage", "Tension", map[
      "device_class" := Str("voltage"), "enabled_by_default" := Bool(true), "icon" := Str("mdi:sine-wave"),
      "state_class" := Str("measurement"), "unit_of_measurement" := Str("mV")]),
    SensorSpec("humidity", "humidity", "__humidity", "Humidity", map[
      "device_class" := Str("humidity"), "enabled_by_default" := Bool(true), "icon" := Str("mdi:humidity"),
      "state_class" := Str("measurement"), "unit_of_measurement" := Str("%")]),
    SensorSpec("temperature", "temperature", "__temperature", "Temperature", map[
      "device_class" := Str("temperature"), "enabled_by_default" := Bool(true), "icon" := Str("mdi:temperature-celsius"),
      "state_class" := Str("measurement"), "unit_of_measurement" := Str("°C")]),
    SensorSpec("co2", "co2", "__co2", "Co2", map[
      "device_class" := Str("carbon_dioxide"), "enabled_by_default" := Bool(true),
      "state_class" := Str("measurement"), "unit_of_measurement" := Str("°C")]),
    SensorSpec("power", "power", "__power", "Power", map[
      "device_class" := Str("power"), "entity_category" := Str("diagnostic"), "enabled_by_default" := Bool(true),
      "state_class" := Str("measurement")]),
    SensorSpec("energy", "energy", "__energy", "Energy", map[
      "device_class" := Str("energy"), "entity_category" := Str("diagnostic"), "enabled_by_default" := Bool(true),
      "state_class" := Str("total_increasing")]),
    SensorSpec("barometer", "barometer", "__barometer", "Barometer", map[
      "device_class" := Str("pressure"), "entity_category" := Str("diagnostic"), "enabled_by_default" := Bool(true),
      "state_class" := Str("measurement"), "unit_of_measurement" := Str("hPa")]),
    SensorSpec("count", "count", "__count", "Count", map[
      "device_class" := Str("pressure"), "entity_category" := Str("diagnostic"), "enabled_by_default" := Bool(true),
      "state_class" := Str("measurement"), "unit_of_measurement" := Str("hPa")])
  ]

  /** The arguments `publishDiscoverySensorToMQTT` receives besides the payload: the device
      object, the device name and topic, the entity topic and the discovery prefix. */
  datatype SensorArgs = SensorArgs(device: JsValue, deviceName: string, deviceTopic: string, entityTopic: string, prefix: string)

  /** The attributes every sensor shares (`commonConf`); they are spread last. */
  function CommonConf(s: Settings, sw: string, a: SensorArgs): map<string, JsValue>
  {
    map["availability" := Availability(s), "device" := a.device,
        "json_attributes_topic" := Str(TopicDevice(s) + "/" + a.entityTopic),
        "origin" := Origin(sw), "state_topic" := Str(TopicDevice(s) + "/" + a.entityTopic)]
  }

  function SensorTopic(deviceTopic: string, key: string): string
  {
    "sensor/" + deviceTopic + "/" + key + "/config"
  }

  function SensorDocument(spec: SensorSpec, s: Settings, sw: string, a: SensorArgs): JsValue
  {
    Obj(spec.attrs
      + map["name" := Str(a.deviceName + " " + spec.caption),
            "object_id" := Str(a.deviceTopic + spec.objectSuffix),
            "unique_id" := Str(a.deviceTopic + "_" + spec.key + "_" + a.prefix),
            "value_template" := Str("{{ value_json." + spec.field + " }}")]
      + CommonConf(s, sw, a))
  }

  function SensorPublication(spec: SensorSpec, s: Settings, sw: string, a: SensorArgs): Publication
  {
    DiscoveryPublication(s, SensorTopic(a.deviceTopic, spec.key), SensorDocument(spec, s, sw, a))
  }

  /** A sensor document reads its own payload field, reports on the entity's state topic
      below the devices topic, and is published under the device topic and its key; the
      shared attributes are spread last, so they win over the entry's own. */
  lemma SensorDocumentShape(spec: SensorSpec, s: Settings, sw: string, a: SensorArgs)
    ensures var p := SensorPublication(spec, s, sw, a);
      && p.topic == "sensor/" + a.deviceTopic + "/" + spec.key + "/config"
      && IsDiscoveryPublication(s, p)
      && Get(p.payload, "value_template") == Str("{{ value_json." + spec.field + " }}")
      && Get(p.payload, "state_topic") == Get(p.payload, "json_attributes_topic") == Str(TopicDevice(s) + "/" + a.entityTopic)
      && Get(p.payload, "unique_id") == Str(a.deviceTopic + "_" + spec.key + "_" + a.prefix)
      && Get(p.payload, "name") == Str(a.deviceName + " " + spec.caption)
      && Get(p.payload, "device") == a.device
      && Get(p.payload, "availability") == Availability(s)
  {
  }

  /** The documents of the registry entries whose field the payload defines, in order. */
  function SensorsFrom(specs: seq<SensorSpec>, s: Settings, sw: string, payload: JsValue, a: SensorArgs): seq<Publication>
  {
    if |specs| == 0 then []
    else
      (if Defined(payload, specs[0].field) then [SensorPublication(specs[0], s, sw, a)] else [])
      + SensorsFrom(specs[1..], s, sw, payload, a)
  }

  /** What `publishDiscoverySensorToMQTT` publishes. */
  function SensorPublications(s: Settings, sw: string, payload: JsValue, a: SensorArgs): seq<Publication>
  {
    SensorsFrom(Sensors, s, sw, payload, a)
  }

  /** A sensor document is published exactly for each registry entry whose field is defined. */
  lemma {:induction false} SensorMembership(specs: seq<SensorSpec>, s: Settings, sw: string, payload: JsValue, a: SensorArgs, p: Publication)
    ensures p in SensorsFrom(specs, s, sw, payload, a)
        <==> exists i :: 0 <= i < |specs| && Defined(payload, specs[i].field) && p == SensorPublication(specs[i], s, sw, a)
  {
    if |specs| > 0 {
      SensorMembership(specs[1..], s, sw, payload, a, p);
      if p in SensorsFrom(specs[1..], s, sw, payload, a) {
        var i :| 0 <= i < |specs[1..]| && Defined(payload, specs[1..][i].field) && p == SensorPublication(specs[1..][i], s, sw, a);
        assert specs[i + 1] == specs[1..][i];
      }
      if exists i :: 0 <= i < |specs| && Defined(payload, specs[i].field) && p == SensorPublication(specs[i], s, sw, a) {
        var i :| 0 <= i < |specs| && Defined(payload, specs[i].field) && p == SensorPublication(specs[i], s, sw, a);
        if i > 0 {
          assert specs[1..][i - 1] == specs[i];
        }
      }
    }
  }

  /** Every sensor document is a discovery publication, and there are never more than the
      registry has entries. */
  lemma {:induction false} SensorsAreDiscovery(specs: seq<SensorSpec>, s: Settings, sw: string, payload: JsValue, a: SensorArgs)
    ensures AllDiscoveryPublications(s, SensorsFrom(specs, s, sw, payload, a))
    ensures |SensorsFrom(specs, s, sw, payload, a)| <= |specs|
  {
    if |specs| > 0 {
      SensorsAreDiscovery(specs[1..], s, sw, payload, a);
    }
  }

  /** Which sensors appear depends on which fields are defined, and on nothing else in the
      payload: not on their values, not on the device type, not on the switch. */
  lemma {:induction false} SensorsIndependent(specs: seq<SensorSpec>, s: Settings, sw: string, payload1: JsValue, payload2: JsValue, a: SensorArgs)
    requires forall i :: 0 <= i < |specs| ==> (Defined(payload1, specs[i].field) <==> Defined(payload2, specs[i].field))
    ensures SensorsFrom(specs, s, sw, payload1, a) == SensorsFrom(specs, s, sw, payload2, a)
  {
    if |specs| > 0 {
      assert forall i :: 0 <= i < |specs[1..]| ==> specs[1..][i] == specs[i + 1];
      SensorsIndependent(specs[1..], s, sw, payload1, payload2, a);
    }
  }

  /** Sensor topics of distinct keys are distinct. */
  lemma SensorTopicInjective(deviceTopic: string, key1: string, key2: string)
    requires SensorTopic(deviceTopic, key1) == SensorTopic(deviceTopic, key2)
    ensures key1 == key2
  {
    var t1 := SensorTopic(deviceTopic, key1);
    var t2 := SensorTopic(deviceTopic, key2);
    var k := |"sensor/" + deviceTopic + "/"|;
    assert |key1| == |key2|;
    assert t1[k..k + |key1|] == key1;
    assert t2[k..k + |key2|] == key2;
  }

  /** The registry's keys are pairwise distinct, so no two sensors of a device share a topic. */
  lemma SensorTopicsDistinct(deviceTopic: string, i: nat, j: nat)
    requires i < |Sensors| && j < |Sensors| && i != j
    ensures SensorTopic(deviceTopic, Sensors[i].key) != SensorTopic(deviceTopic, Sensors[j].key)
  {
    if SensorTopic(deviceTopic, Sensors[i].key) == SensorTopic(deviceTopic, Sensors[j].key) {
      SensorTopicInjective(deviceTopic, Sensors[i].key, Sensors[j].key);
    }
  }

  /** No two publications share a topic. */
  predicate TopicsDistinct(ps: seq<Publication>)
  {
    forall i, j :: 0 <= i < j < |ps| ==> ps[i].topic != ps[j].topic
  }

  /** Registry entries with distinct topics give documents with distinct topics: no entry is
      published twice. */
  lemma {:induction false} SensorsFromDistinct(specs: seq<SensorSpec>, s: Settings, sw: string, payload: JsValue, a: SensorArgs)
    requires forall i, j :: 0 <= i < j < |specs| ==> SensorTopic(a.deviceTopic, specs[i].key) != SensorTopic(a.deviceTopic, specs[j].key)
    ensures TopicsDistinct(SensorsFrom(specs, s, sw, payload, a))
  {
    if |specs| > 0 {
      var tail := specs[1..];
      forall i, j | 0 <= i < j < |tail|
        ensures SensorTopic(a.deviceTopic, tail[i].key) != SensorTopic(a.deviceTopic, tail[j].key)
      {
        assert tail[i] == specs[i + 1] && tail[j] == specs[j + 1];
      }
      SensorsFromDistinct(tail, s, sw, payload, a);
      var rest := SensorsFrom(tail, s, sw, payload, a);
      if Defined(payload, specs[0].field) {
        var head := SensorPublication(specs[0], s, sw, a);
        forall q | q in rest
          ensures q.topic != head.topic
        {
          SensorMembership(tail, s, sw, payload, a, q);
          var k :| 0 <= k < |tail| && Defined(payload, tail[k].field) && q == SensorPublication(tail[k], s, sw, a);
          assert tail[k] == specs[k + 1];
        }
        var ps := [head] + rest;
        forall i, j | 0 <= i < j < |ps|
          ensures ps[i].topic != ps[j].topic
        {
          assert ps[j] == rest[j - 1] && ps[j] in rest;
          if i > 0 {
            assert ps[i] == rest[i - 1];
          }
        }
        assert SensorsFrom(specs, s, sw, payload, a) == ps;
      } else {
        assert SensorsFrom(specs, s, sw, payload, a) == rest;
      }
    }
  }

  /** Every defined field of the registry gives exactly one document: the sensor topics a
      payload produces are pairwise distinct. */
  lemma SensorPublicationsDistinct(s: Settings, sw: string, payload: JsValue, a: SensorArgs)
    ensures TopicsDistinct(SensorPublications(s, sw, payload, a))
  {
    forall i, j | 0 <= i < j < |Sensors|
      ensures SensorTopic(a.deviceTopic, Sensors[i].key) != SensorTopic(a.deviceTopic, Sensors[j].key)
    {
      SensorTopicsDistinct(a.deviceTopic, i, j);
    }
    SensorsFromDistinct(Sensors, s, sw, payload, a);
  }

  // ---------------------------------------------------------------------------
  // Everything one payload produces

  /** The sensor documents, then the switch document, of one payload. */
  function DiscoveryPublications(s: Settings, sw: string, payload: JsValue, isGroup: bool): seq<Publication>
    requires WellFormedPayload(payload)
  {
    var n := DeriveNames(s.devices, payload, isGroup);
    var device := DeviceEntity(s.discoveryDevice, n.deviceId, n.deviceName);
    SensorPublications(s, sw, payload, SensorArgs(device, n.deviceName, n.deviceTopic, n.entityTopic, s.discoveryDevice))
    + SwitchPublications(s, sw, payload, device, n.entityTopic, s.discoveryDevice, n.entityId, isGroup)
  }

  /** The sensor arguments `publishDiscoveryToMQTT` passes for a payload. */
  function PayloadSensorArgs(s: Settings, payload: JsValue, isGroup: bool): SensorArgs
    requires WellFormedPayload(payload)
  {
    var n := DeriveNames(s.devices, payload, isGroup);
    SensorArgs(DeviceEntity(s.discoveryDevice, n.deviceId, n.deviceName), n.deviceName, n.deviceTopic, n.entityTopic, s.discoveryDevice)
  }

  /** Every document a payload produces is retained, QoS 1, under the discovery topic. */
  lemma AllDocumentsAreDiscovery(s: Settings, sw: string, payload: JsValue, isGroup: bool)
    requires WellFormedPayload(payload)
    ensures AllDiscoveryPublications(s, DiscoveryPublications(s, sw, payload, isGroup))
  {
    SensorsAreDiscovery(Sensors, s, sw, payload, PayloadSensorArgs(s, payload, isGroup));
  }

  /** All documents of one payload describe the same device card, built from the device id
      and device name, and carry the same origin. */
  lemma DeviceDocumentsShared(s: Settings, sw: string, payload: JsValue, isGroup: bool)
    requires WellFormedPayload(payload)
    ensures var n := DeriveNames(s.devices, payload, isGroup);
      ShareDevice(DiscoveryPublications(s, sw, payload, isGroup), DeviceEntity(s.discoveryDevice, n.deviceId, n.deviceName), Origin(sw))
  {
    var n := DeriveNames(s.devices, payload, isGroup);
    var device := DeviceEntity(s.discoveryDevice, n.deviceId, n.deviceName);
    var a := PayloadSensorArgs(s, payload, isGroup);
    assert a.device == device;
    var sens := SensorPublications(s, sw, payload, a);
    var sws := SwitchPublications(s, sw, payload, device, n.entityTopic, s.discoveryDevice, n.entityId, isGroup);
    assert DiscoveryPublications(s, sw, payload, isGroup) == sens + sws;
    SensorsShareDevice(Sensors, s, sw, payload, a);
    SwitchSharesDevice(s, sw, payload, device, n.entityTopic, s.discoveryDevice, n.entityId, isGroup);
    ConcatShareDevice(sens, sws, device, Origin(sw));
  }

  /** Every document of a device carries this device card and origin. */
  predicate ShareDevice(ps: seq<Publication>, device: JsValue, origin: JsValue)
  {
    forall i :: 0 <= i < |ps| ==> Get(ps[i].payload, "device") == device && Get(ps[i].payload, "origin") == origin
  }

  lemma ConcatShareDevice(ps: seq<Publication>, qs: seq<Publication>, device: JsValue, origin: JsValue)
    requires ShareDevice(ps, device, origin) && ShareDevice(qs, device, origin)
    ensures ShareDevice(ps + qs, device, origin)
  {
    forall i | 0 <= i < |ps + qs|
      ensures Get((ps + qs)[i].payload, "device") == device && Get((ps + qs)[i].payload, "origin") == origin
    {
      if i < |ps| {
        assert (ps + qs)[i] == ps[i];
      } else {
        assert (ps + qs)[i] == qs[i - |ps|];
      }
    }
  }

  /** Every sensor document carries the device card and the origin it was given. */
  lemma {:induction false} SensorsShareDevice(specs: seq<SensorSpec>, s: Settings, sw: string, payload: JsValue, a: SensorArgs)
    ensures ShareDevice(SensorsFrom(specs, s, sw, payload, a), a.device, Origin(sw))
  {
    if |specs| > 0 {
      SensorsShareDevice(specs[1..], s, sw, payload, a);
      SensorDocumentShape(specs[0], s, sw, a);
      var head := if Defined(payload, specs[0].field) then [SensorPublication(specs[0], s, sw, a)] else [];
      assert ShareDevice(head, a.device, Origin(sw));
      ConcatShareDevice(head, SensorsFrom(specs[1..], s, sw, payload, a), a.device, Origin(sw));
    }
  }

  /** The switch document carries the device card and the origin. */
  lemma SwitchSharesDevice(s: Settings, sw: string, payload: JsValue, device: JsValue, entityTopic: string, prefix: string, entityId: string, isGroup: bool)
    ensures ShareDevice(SwitchPublications(s, sw, payload, device, entityTopic, prefix, entityId, isGroup), device, Origin(sw))
  {
    var doc := SwitchDocument(s, sw, payload, device, entityTopic, prefix, entityId, isGroup);
    assert doc.fields["device"] == device && doc.fields["origin"] == Origin(sw);
    assert Get(doc, "device") == device && Get(doc, "origin") == Origin(sw);
  }

  /** The example payload of the documentation: a temperaturehumidity1 reading with
      temperature, humidity, battery level and signal strength. */
  const ExamplePayload: JsValue := Obj(map[
    "title" := Str("Bathroom Temp & Hum"), "type" := Str("temperaturehumidity1"), "subtype" := Num(13),
    "id" := Str("0x5C03"), "seqnbr" := Num(12), "temperature" := Num(18), "humidity" := Num(74),
    "humidityStatus" := Num(3), "batteryLevel" := Num(9), "rssi" := Num(6)])

  /** It produces four sensor documents, linkquality, battery, humidity and temperature in
      that order, and no switch. */
  lemma ExamplePayloadDocuments(s: Settings, sw: string, isGroup: bool)
    ensures WellFormedPayload(ExamplePayload)
    ensures var ps := DiscoveryPublications(s, sw, ExamplePayload, isGroup);
      var dt := DeriveNames(s.devices, ExamplePayload, isGroup).deviceTopic;
      && |ps| == 4
      && ps[0].topic == SensorTopic(dt, "linkquality")
      && ps[1].topic == SensorTopic(dt, "battery")
      && ps[2].topic == SensorTopic(dt, "humidity")
      && ps[3].topic == SensorTopic(dt, "temperature")
  {
    var p := ExamplePayload;
    ExampleFields();
    var a := PayloadSensorArgs(s, p, isGroup);
    ExampleNoSwitch(s, sw, isGroup);
    ExampleSensors(s, sw, a);
  }

  /** The example is no lighting device, so its documents are its sensors alone. */
  lemma ExampleNoSwitch(s: Settings, sw: string, isGroup: bool)
    requires WellFormedPayload(ExamplePayload)
    ensures DiscoveryPublications(s, sw, ExamplePayload, isGroup) == SensorPublications(s, sw, ExamplePayload, PayloadSensorArgs(s, ExamplePayload, isGroup))
  {
    var p := ExamplePayload;
    var n := DeriveNames(s.devices, p, isGroup);
    var device := DeviceEntity(s.discoveryDevice, n.deviceId, n.deviceName);
    assert Get(p, "type") == Str("temperaturehumidity1");
    assert !IsLightingFamily(Get(p, "type"));
    assert SwitchPublications(s, sw, p, device, n.entityTopic, s.discoveryDevice, n.entityId, isGroup) == [];
  }

  lemma ExampleSensors(s: Settings, sw: string, a: SensorArgs)
    ensures var ps := SensorPublications(s, sw, ExamplePayload, a);
      && |ps| == 4
      && ps[0].topic == SensorTopic(a.deviceTopic, "linkquality")
      && ps[1].topic == SensorTopic(a.deviceTopic, "battery")
      && ps[2].topic == SensorTopic(a.deviceTopic, "humidity")
      && ps[3].topic == SensorTopic(a.deviceTopic, "temperature")
  {
    var specs := Sensors;
    ExampleSensorList(s, sw, a);
    assert specs[0].key == "linkquality" && specs[1].key == "battery";
    assert specs[3].key == "humidity" && specs[4].key == "temperature";
  }

  lemma ExampleSensorList(s: Settings, sw: string, a: SensorArgs)
    ensures SensorPublications(s, sw, ExamplePayload, a)
         == [SensorPublication(Sensors[0], s, sw, a), SensorPublication(Sensors[1], s, sw, a),
             SensorPublication(Sensors[3], s, sw, a), SensorPublication(Sensors[4], s, sw, a)]
  {
    ExampleFields();
    FieldsZeroOneThreeFour(Sensors, s, sw, ExamplePayload, a);
  }

  /** A registry of ten whose entries 0, 1, 3 and 4 alone are defined yields those four. */
  lemma FieldsZeroOneThreeFour(specs: seq<SensorSpec>, s: Settings, sw: string, p: JsValue, a: SensorArgs)
    requires |specs| == 10
    requires Defined(p, specs[0].field) && Defined(p, specs[1].field) && !Defined(p, specs[2].field)
    requires Defined(p, specs[3].field) && Defined(p, specs[4].field)
    requires forall k :: 5 <= k < |specs| ==> !Defined(p, specs[k].field)
    ensures SensorsFrom(specs, s, sw, p, a)
         == [SensorPublication(specs[0], s, sw, a), SensorPublication(specs[1], s, sw, a),
             SensorPublication(specs[3], s, sw, a), SensorPublication(specs[4], s, sw, a)]
  {
    var p0, p1 := SensorPublication(specs[0], s, sw, a), SensorPublication(specs[1], s, sw, a);
    FieldsThreeFour(specs, s, sw, p, a);
    SensorsFromStep(specs, 2, s, sw, p, a);
    SensorsFromStep(specs, 1, s, sw, p, a);
    assert SensorsFrom(specs[1..], s, sw, p, a) == [p1] + SensorsFrom(specs[3..], s, sw, p, a);
    SensorsFromStep(specs, 0, s, sw, p, a);
    assert specs[0..] == specs;
  }

  /** From entry 3 on, a registry of ten whose entries 3 and 4 alone are defined yields those two. */
  lemma FieldsThreeFour(specs: seq<SensorSpec>, s: Settings, sw: string, p: JsValue, a: SensorArgs)
    requires |specs| == 10
    requires Defined(p, specs[3].field) && Defined(p, specs[4].field)
    requires forall k :: 5 <= k < |specs| ==> !Defined(p, specs[k].field)
    ensures SensorsFrom(specs[3..], s, sw, p, a) == [SensorPublication(specs[3], s, sw, a), SensorPublication(specs[4], s, sw, a)]
  {
    SensorsFromAbsent(specs, 5, s, sw, p, a);
    SensorsFromStep(specs, 4, s, sw, p, a);
    SensorsFromStep(specs, 3, s, sw, p, a);
  }

  /** Which registry fields the example payload defines. */
  lemma ExampleFields()
    ensures WellFormedPayload(ExamplePayload)
    ensures Defined(ExamplePayload, Sensors[0].field) && Defined(ExamplePayload, Sensors[1].field)
    ensures !Defined(ExamplePayload, Sensors[2].field) && Defined(ExamplePayload, Sensors[3].field)
    ensures Defined(ExamplePayload, Sensors[4].field)
    ensures forall k :: 5 <= k < |Sensors| ==> !Defined(ExamplePayload, Sensors[k].field)
  {
    SensorFieldNames();
    ExampleDefined();
    forall k | 5 <= k < |Sensors| ensures !Defined(ExamplePayload, Sensors[k].field) {
      assert Sensors[k].field in ["co2", "power", "energy", "barometer", "count"];
    }
  }

  /** The payload fields the registry reads, in registry order. */
  lemma SensorFieldNames()
    ensures |Sensors| == 10
    ensures Sensors[0].field == "rssi" && Sensors[1].field == "batteryLevel" && Sensors[2].field == "batteryVoltage"
    ensures Sensors[3].field == "humidity" && Sensors[4].field == "temperature" && Sensors[5].field == "co2"
    ensures Sensors[6].field == "power" && Sensors[7].field == "energy" && Sensors[8].field == "barometer"
    ensures Sensors[9].field == "count"
  {
  }

  lemma ExampleDefined()
    ensures WellFormedPayload(ExamplePayload)
    ensures Defined(ExamplePayload, "rssi") && Defined(ExamplePayload, "batteryLevel") && !Defined(ExamplePayload, "batteryVoltage")
    ensures Defined(ExamplePayload, "humidity") && Defined(ExamplePayload, "temperature")
    ensures forall f :: f in ["co2", "power", "energy", "barometer", "count"] ==> !Defined(ExamplePayload, f)
  {
  }

  lemma SensorsFromStep(specs: seq<SensorSpec>, k: nat, s: Settings, sw: string, payload: JsValue, a: SensorArgs)
    requires k < |specs|
    ensures SensorsFrom(specs[k..], s, sw, payload, a)
         == (if Defined(payload, specs[k].field) then [SensorPublication(specs[k], s, sw, a)] else [])
            + SensorsFrom(specs[k + 1..], s, sw, payload, a)
  {
    assert specs[k..][1..] == specs[k + 1..];
  }

  lemma {:induction false} SensorsFromAbsent(specs: seq<SensorSpec>, k: nat, s: Settings, sw: string, payload: JsValue, a: SensorArgs)
    requires k <= |specs|
    requires forall j :: k <= j < |specs| ==> !Defined(payload, specs[j].field)
    ensures SensorsFrom(specs[k..], s, sw, payload, a) == []
    decreases |specs| - k
  {
    if k < |specs| {
      SensorsFromStep(specs, k, s, sw, payload, a);
      SensorsFromAbsent(specs, k + 1, s, sw, payload, a);
    }
  }
}
