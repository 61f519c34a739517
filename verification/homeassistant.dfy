/** `HomeassistantDiscovery`: turns command messages into RF commands and state updates, and
    decoded device payloads into Home Assistant discovery documents. Each method is proved
    against the specification functions of `HassCommands` and `HassDocuments`. */
module Homeassistant {
  import opened Strings
  import opened Json
  import opened Collaborators
  import opened DiscoveryBase
  import opened HassCommands
  import opened HassDocuments

  class HomeassistantDiscovery {
    const settings: Settings
    const mqtt: MqttClient
    const rfxtrx: RfxcomDriver
    const state: StateStore
    /** `discoveryOrigin.sw`, empty until `start`. */
    var originSw: string

    constructor(mqtt: MqttClient, rfxtrx: RfxcomDriver, settings: Settings, state: StateStore)
      ensures this.mqtt == mqtt && this.rfxtrx == rfxtrx && this.settings == settings && this.state == state
      ensures originSw == ""
    {
      this.mqtt := mqtt;
      this.rfxtrx := rfxtrx;
      this.settings := settings;
      this.state := state;
      originSw := "";
    }

    /** `start`: the origin advertises the software version from now on. */
    method Start(version: string)
      modifies this
      ensures originSw == version
    {
      originSw := version;
    }

    /** `onMQTTMessage` for a command topic: the record stored under the entity, the device
        type and the message's subtype (created empty when missing) gets the topic's device
        type and the command text, in place; the driver is asked once to send the resulting
        function, whatever the device type; the whole record is published, retained. */
    method OnMQTTMessage(msg: MqttMessage)
      requires UnitSegmentIsDecimal(msg.topic)
      requires state.Valid()
      modifies state, state.records.Values, rfxtrx, mqtt
      ensures state.Valid() && state.writes == old(state.writes)
      ensures state.Contents() == old(state.Contents())[CommandKey(msg) := CommandRecord(old(state.Contents()), msg)]
      ensures rfxtrx.sent == old(rfxtrx.sent) + [CommandCall(old(state.Contents()), msg)]
      ensures mqtt.outbox == old(mqtt.outbox) + [CommandStatePublication(settings.devicesTopic, old(state.Contents()), msg)]
    {
      var deviceType, subTypeValue, entityName, entityTopic := ParseTopic(msg.topic);
      ghost var before := state.Contents();
      var entityState := UpdateStoredState(StateKey(entityName, deviceType, msg.subtype), deviceType, msg.text);
      ghost var after := state.Contents();
      rfxtrx.SendCommand(deviceType, subTypeValue, Field(entityState.fields, "rfxFunction"), entityTopic);
      mqtt.Publish(settings.devicesTopic + "/" + ToJsString(entityName), Obj(entityState.fields), true, 1, None);
      assert state.Contents() == after;
    }

    /** The state part of `onMQTTMessage`: the record the store hands out for `key` gets
        the device type and then the command text, in place, so the store holds it from now on. */
    method UpdateStoredState(key: StateKey, deviceType: JsValue, value: string) returns (entityState: EntityState)
      requires state.Valid()
      modifies state, state.records.Values
      ensures state.Valid() && state.writes == old(state.writes)
      ensures entityState.fields == StateAfterValue(StoredOrEmpty(old(state.Contents()), key)["deviceType" := deviceType], value)
      ensures state.Contents() == old(state.Contents())[key := entityState.fields]
    {
      ghost var before := state.Contents();
      entityState := state.Get(key);
      ghost var looked := state.Contents();
      assert looked[key] == StoredOrEmpty(before, key);
      label Looked:
      entityState.fields := entityState.fields["deviceType" := deviceType];
      UpdateEntityStateFromValue(entityState, value);
      state.InPlaceUpdate@Looked(key);
      assert looked[key := entityState.fields] == before[key := entityState.fields];
    }

    /** The topic parsing at the head of `onMQTTMessage`: entity name and topic start as the
        id and take the re-rendered unit code, with `_` and `/`, when there is one. */
    method ParseTopic(topic: string) returns (deviceType: JsValue, subTypeValue: JsValue, entityName: JsValue, entityTopic: JsValue)
      requires UnitSegmentIsDecimal(topic)
      ensures CommandTarget(deviceType, subTypeValue, entityName, entityTopic) == ParseCommandTopic(topic)
    {
      var dn := Split(topic, '/');
      deviceType := Segment(dn, 2);
      var id := Segment(dn, 4);
      subTypeValue := Segment(dn, 3);
      entityName := id;
      entityTopic := id;
      if HasUnitSegment(dn) {
        var unitCode := ParseDigits(dn[5]);
        entityTopic := Str(ToJsString(entityTopic) + "/" + NatToString(unitCode));
        entityName := Str(ToJsString(entityName) + "_" + NatToString(unitCode));
      }
    }

    /** `updateEntityStateFromValue`: the command text changes the record in place. */
    method UpdateEntityStateFromValue(entityState: EntityState, value: string)
      modifies entityState
      ensures entityState.fields == StateAfterValue(old(entityState.fields), value)
    {
      var deviceType := Field(entityState.fields, "deviceType");
      if IsLightingFamily(deviceType) {
        var cmd := Split(ToLower(value), ' ');
        var command := Str(cmd[0]);
        if cmd[0] == "group" {
          command := Segment(cmd, 1);
        }
        if command == Str("on") {
          entityState.fields := entityState.fields["commandNumber" := Num(if cmd[0] == "group" then 4 else 1)];
          entityState.fields := entityState.fields["rfxFunction" := Str("switchOn")];
        } else if command == Str("off") {
          entityState.fields := entityState.fields["rfxFunction" := Num(if cmd[0] == "group" then 3 else 0)];
          entityState.fields := entityState.fields["rfxCommand" := Str("switchOff")];
        } else {
          if cmd[0] == "level" {
            entityState.fields := entityState.fields["rfxFunction" := Str("setLevel")];
            entityState.fields := entityState.fields["rfxOpt" := Segment(cmd, 1)];
          }
        }
      } else if deviceType == Str("lighting4") {
        entityState.fields := entityState.fields["rfxFunction" := Str("sendData")];
      } else if deviceType == Str("chime1") {
        entityState.fields := entityState.fields["rfxFunction" := Str("chime")];
      }
    }

    /** `publishDiscoveryToMQTT`: derives the names of the payload's device and entity, stores
        the payload with reason "event", then publishes the sensor documents and the switch. */
    method PublishDiscoveryToMQTT(payload: JsValue, isGroup: bool)
      requires WellFormedPayload(payload) && state.Valid()
      modifies state, mqtt
      ensures state.Valid()
      ensures var key := StoreKey(payload, DeriveNames(settings.devices, payload, isGroup));
        && state.Contents() == old(state.Contents())[key := payload.fields]
        && state.writes == old(state.writes) + [StoreWrite(key, "event")]
      ensures mqtt.outbox == old(mqtt.outbox) + DiscoveryPublications(settings, originSw, payload, isGroup)
    {
      var devicePrefix := settings.discoveryDevice;
      var deviceConf, deviceId, deviceTopic, entityId, entityName, entityTopic := EntityNames(payload, isGroup);
      var deviceName := deviceId;

      state.Set(StateKey(Str(entityName), Get(payload, "type"), Get(payload, "subtype")), payload.fields, "event");
      ghost var stored := state.Contents();

      if deviceConf.Some? && Truthy(deviceConf.value.friendlyName) {
        deviceName := deviceConf.value.friendlyName.value;
      }
      assert deviceName == DeriveNames(settings.devices, payload, isGroup).deviceName;

      var deviceJson := DeviceEntity(devicePrefix, deviceId, deviceName);
      PublishDiscoverySensorToMQTT(payload, deviceJson, deviceName, deviceTopic, entityTopic, devicePrefix);
      PublishDiscoverySwitchToMQTT(payload, deviceJson, deviceName, deviceTopic, entityTopic, devicePrefix, entityId, isGroup);
      assert state.Contents() == stored;
    }

    /** The naming steps of `publishDiscoveryToMQTT`: the device alias replaces both topics,
        a unit that is no group extends the entity id, name and topic, and the configured
        units may then rename the entity topic. */
    method EntityNames(payload: JsValue, isGroup: bool)
      returns (deviceConf: Option<DeviceConf>, deviceId: string, deviceTopic: string, entityId: string, entityName: string, entityTopic: string)
      requires WellFormedPayload(payload)
      ensures deviceConf == FindDevice(settings.devices, Get(payload, "id").s)
      ensures var n := DeriveNames(settings.devices, payload, isGroup);
        && deviceId == n.deviceId && deviceTopic == n.deviceTopic
        && entityId == n.entityId && entityName == n.entityName && entityTopic == n.entityTopic
    {
      var id := Get(payload, "id").s;
      deviceId := ToJsString(Get(payload, "subTypeValue")) + "_" + ReplaceFirst(id, "0x", "");
      deviceTopic := id;
      entityId := ToJsString(Get(payload, "subTypeValue")) + "_" + ReplaceFirst(id, "0x", "");
      entityName := id;
      entityTopic := id;

      deviceConf := FindDevice(settings.devices, id);
      if deviceConf.Some? && deviceConf.value.name.Some? {
        entityTopic := deviceConf.value.name.value;
        deviceTopic := deviceConf.value.name.value;
      }
      ghost var n := DeriveNames(settings.devices, payload, isGroup);
      assert deviceTopic == entityTopic == n.deviceTopic;

      var unitCode := Get(payload, "unitCode");
      if unitCode != Undefined && !isGroup {
        entityId := entityId + "_" + ToJsString(unitCode);
        entityTopic := entityTopic + "/" + ToJsString(unitCode);
        entityName := entityName + "_" + ToJsString(unitCode);
        assert entityTopic == n.deviceTopic + UnitSuffix(payload, isGroup, "/");
        assert entityName == id + UnitSuffix(payload, isGroup, "_");
        assert entityId == deviceId + UnitSuffix(payload, isGroup, "_");
        if deviceConf.Some? && deviceConf.value.units.Some? {
          entityTopic := ResolveUnitTopic(deviceConf.value.units.value, unitCode.n, entityTopic);
        }
      } else {
        assert entityName == id + "" && entityId == deviceId + "" && entityTopic == n.deviceTopic + "";
      }
    }

    /** The `forEach` over the configured units: every unit with the same code and a name
        overwrites the topic, so the last one wins. */
    method ResolveUnitTopic(units: seq<UnitConf>, unitCode: int, topic: string) returns (r: string)
      ensures r == UnitTopic(units, unitCode, topic)
    {
      r := topic;
      var i := 0;
      while i < |units|
        invariant 0 <= i <= |units|
        invariant r == UnitTopic(units[..i], unitCode, topic)
      {
        if units[i].unitCode == unitCode && Truthy(units[i].name) {
          r := units[i].name.value;
        }
        UnitTopicSnoc(units[..i], units[i], unitCode, topic);
        assert units[..i + 1] == units[..i] + [units[i]];
        i := i + 1;
      }
      assert units[..|units|] == units;
    }

    /** `publishDiscoverySwitchToMQTT`: one switch document for a lighting device. */
    method PublishDiscoverySwitchToMQTT(payload: JsValue, deviceJson: JsValue, deviceName: string, deviceTopic: string,
                                        entityTopic: string, devicePrefix: string, entityId: string, isGroup: bool)
      modifies mqtt
      ensures mqtt.outbox == old(mqtt.outbox) + SwitchPublications(settings, originSw, payload, deviceJson, entityTopic, devicePrefix, entityId, isGroup)
    {
      if IsLightingFamily(Get(payload, "type")) {
        PublishDiscovery(mqtt, settings, "switch/" + entityTopic + "/config",
          SwitchDocument(settings, originSw, payload, deviceJson, entityTopic, devicePrefix, entityId, isGroup));
      }
    }

    /** `publishDiscoverySensorToMQTT`: one document for each registry entry whose field the
        payload defines, in registry order. */
    method PublishDiscoverySensorToMQTT(payload: JsValue, deviceJson: JsValue, deviceName: string, deviceTopic: string,
                                        entityTopic: string, devicePrefix: string)
      modifies mqtt
      ensures mqtt.outbox == old(mqtt.outbox)
        + SensorPublications(settings, originSw, payload, SensorArgs(deviceJson, deviceName, deviceTopic, entityTopic, devicePrefix))
    {
      PublishSensors(Sensors, payload, SensorArgs(deviceJson, deviceName, deviceTopic, entityTopic, devicePrefix));
    }

    /** The registry walk: each entry publishes its document when its field is defined. */
    method PublishSensors(specs: seq<SensorSpec>, payload: JsValue, a: SensorArgs)
      modifies mqtt
      ensures mqtt.outbox == old(mqtt.outbox) + SensorsFrom(specs, settings, originSw, payload, a)
    {
      var i := 0;
      while i < |specs|
        invariant 0 <= i <= |specs|
        invariant mqtt.outbox + SensorsFrom(specs[i..], settings, originSw, payload, a)
               == old(mqtt.outbox) + SensorsFrom(specs, settings, originSw, payload, a)
      {
        var spec := specs[i];
        SensorsFromStep(specs, i, settings, originSw, payload, a);
        ghost var rest := SensorsFrom(specs[i + 1..], settings, originSw, payload, a);
        ghost var prev := mqtt.outbox;
        if Defined(payload, spec.field) {
          PublishDiscovery(mqtt, settings, SensorTopic(a.deviceTopic, spec.key), SensorDocument(spec, settings, originSw, a));
          assert mqtt.outbox + rest == prev + ([SensorPublication(spec, settings, originSw, a)] + rest);
        } else {
          assert mqtt.outbox + rest == prev + ([] + rest);
        }
        i := i + 1;
      }
      assert specs[0..] == specs;
    }
  }
}
