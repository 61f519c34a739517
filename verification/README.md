# rfxcom2mqtt discovery, modelled in Dafny

rfxcom2mqtt bridges an RFXCOM radio transceiver to MQTT. Its discovery module
(`src/libs/Discovery.ts`) has two jobs:

- It announces every decoded RF device, and the bridge itself, to Home Assistant
  as retained MQTT discovery documents.
- It turns the commands Home Assistant sends back on `<base>/cmd/...` topics into
  RF commands and state updates.

This project models that module. Each part below is in its own Dafny module.

- `AbstractDiscovery` is `DiscoveryBase` (`discovery_base.dfy`). It holds the
  settings, the origin descriptor and the one publish primitive, `publishDiscovery`.
  Every discovery document is retained, QoS 1, under the `discovery_topic` prefix.
- The command path of `HomeassistantDiscovery` is `HassCommands` (`hass_commands.dfy`).
  It covers parsing a command topic and the per-family state transition driven by
  the command text.
- The documents of `HomeassistantDiscovery` are `HassDocuments` (`hass_documents.dfy`).
  They are:
  - the names and aliases derived for a payload;
  - the switch document of a lighting device;
  - the ten sensor documents, as a registry table with one entry per measured field.
- The class `HomeassistantDiscovery` is in `Homeassistant` (`homeassistant.dfy`). Each
  method is proved against the functions of the two modules above.
- `BridgeDiscovery` is `Bridge` (`bridge.dfy`). It has the four bridge documents and
  the log-level request.
- The facade `Discovery` is in `discovery.dfy`. It covers subscription, routing of
  inbound messages and dispatch of discovery requests.
- `Collaborators` (`collaborators.dfy`) holds the objects the module talks to:
  - the MQTT client, as an outbox of publications;
  - the RF driver, as a log of `sendCommand` calls;
  - the state store, as a map from key to a mutable record object;
  - the logger, as its level.

  It also has MQTT topic-filter matching under the `+`/`#` wildcard rules of section 4.7
  of the MQTT 3.1.1 standard.
- `Strings` and `Json` (`strings.dfy`, `json.dfy`) give the JavaScript semantics the
  code relies on:
  - `split`, `join`, `toLowerCase`, `indexOf`/`includes`;
  - `replace` with a string pattern;
  - `String(n)` and `parseInt`;
  - property access that yields `undefined`;
  - string conversion of values.

Some quirks of the code are modelled as written:

- `off` stores a number (0, or 3 after `group`) in `rfxFunction` and `switchOff` in
  `rfxCommand`.
- `group on` differs from `on` only in `commandNumber`.
- `sendCommand` is called for every device type, supported or not.
- The state key takes its subtype from the message object, not from the topic.
- Only the first `0x` of an id is removed, wherever it stands.
- Sensor documents are published under the device topic, not the entity topic.
- The co2 sensor's unit is `°C`, and the count sensor has device class `pressure` with
  unit `hPa`.
- Routing tests whether the topic contains `<base>/cmd/` anywhere, not whether it starts
  with it.
- A command for a unit-aliased switch is keyed on the alias. Discovery stores unit 3 of
  device `0x1`, aliased `kitchen`, under the entity name `0x1_3`. Its command topic ends
  in `/kitchen/set`, so the command handler reads and writes the record `kitchen`.

## Model

| member | source | states |
|---|---|---|
| Strings.Split | src/libs/Discovery.ts:117 | `split` yields at least one piece and no piece contains the separator |
| Strings.SplitJoin | src/libs/Discovery.ts:117 | splitting a join of separator-free pieces gives the pieces back |
| Strings.JoinSplit | src/libs/Discovery.ts:117 | joining the pieces of a split gives the original string |
| Strings.SplitConcat | src/libs/Discovery.ts:117 | splitting at a separator splits both sides independently |
| Strings.ToLower | src/libs/Discovery.ts:147 | lower-casing keeps the length and lowers each character |
| Strings.ToLowerIdempotent | src/libs/Discovery.ts:147 | lower-casing twice is lower-casing once |
| Strings.IndexOfFrom | src/libs/Discovery.ts:76 | the result is the first occurrence at or after the start; none means there is no occurrence |
| Strings.ReplaceFirst | src/libs/Discovery.ts:183 | the definition of `replace` with a string pattern; stated by ReplaceFirstAt and ReplaceFirstAbsent |
| Strings.ReplaceFirstAt | src/libs/Discovery.ts:183 | `replace` with a string pattern replaces the first occurrence and keeps later ones |
| Strings.ReplaceFirstAbsent | src/libs/Discovery.ts:183 | without an occurrence the string is unchanged |
| Json.ToJsString | src/libs/Discovery.ts:183 | the definition of string conversion of a value in `+` and template literals: numbers in decimal, `undefined`, `true`/`false`, arrays joined with `,` |
| Strings.NatToString | src/libs/Discovery.ts:129-131 | `String(n)` is a non-empty digit string that starts with 0 only for 0 |
| Strings.ParseNatToString | src/libs/Discovery.ts:129-131 | parsing the rendering of a number gives the number back |
| Strings.NatToStringParse | src/libs/Discovery.ts:129-131 | re-rendering a parsed unit segment gives the segment back iff it has no leading zero, so `01` becomes `1` |
| Strings.CanonicalRoundTrip | src/libs/Discovery.ts:129-131 | a digit string without a leading zero survives parsing and re-rendering |
| Collaborators.MqttClient.Publish | src/libs/Discovery.ts:141 | one publish call appends exactly one publication to the outbox |
| Collaborators.RfxcomDriver.SendCommand | src/libs/Discovery.ts:140 | one `sendCommand` call appends exactly one call record |
| Collaborators.StateStore.Get | src/libs/Discovery.ts:137 | `state.get` returns the stored record, or creates and stores an empty one; nothing else changes |
| Collaborators.StateStore.InPlaceUpdate | src/libs/Discovery.ts:138-139 | a record changed in place through the returned object shows under its key and no other |
| Collaborators.StateStore.Set | src/libs/Discovery.ts:213 | `state.set` replaces the whole record under the key with a new object and logs the write with its reason |
| Collaborators.Logger.SetLevel | src/libs/Discovery.ts:494 | the logger takes the given level |
| Collaborators.MultiLevelWildcardMatches | src/libs/Discovery.ts:71-73 | a filter `<p>/#` matches every topic `<p>/<rest>` when `<p>` holds no wildcard |
| DiscoveryBase.PublishDiscovery | src/libs/Discovery.ts:43-45 | a discovery document is published retained, QoS 1, under the discovery topic |
| HassCommands.ParseCommandTopic | src/libs/Discovery.ts:117-132 | the definition of the topic parsing: segments 2, 3 and 4 of the `/`-split topic, with `_<unit>` and `/<unit>` added when segment 5 is a unit; its properties are stated by ParseCommandSegments and CommandTopicRoundTrip |
| HassCommands.ParseCommandSegments | src/libs/Discovery.ts:117-132 | segments 2 and 3 are type and subtype; a present, non-empty segment 5 other than `set` adds `_u` to the name and `/u` to the topic; otherwise both are segment 4 |
| HassCommands.CommandTopicRoundTrip | src/libs/Discovery.ts:117-132 | a command topic built from slash-free parts parses back into its type, subtype, entity name and entity topic |
| HassCommands.StateAfterValue | src/libs/Discovery.ts:144-176 | the definition of the command transition, keyed on the record's deviceType; its properties are stated by the lemmas below |
| HassCommands.LightingCommand | src/libs/Discovery.ts:147-164 | the definition of the lighting branch on the lower-cased words; stated case by case by SingleVerb and GroupVerb |
| HassCommands.WordsOf | src/libs/Discovery.ts:147 | the command words are the lower-cased words of the text |
| HassCommands.LightingText | src/libs/Discovery.ts:145-148 | on a lighting device the text is read as its lower-cased words |
| HassCommands.SingleVerb | src/libs/Discovery.ts:149-164 | without `group`: `on` sets commandNumber 1 and `switchOn`; `off` sets rfxFunction 0 and `switchOff`; `level` sets `setLevel` and the option; any other word changes nothing |
| HassCommands.GroupVerb | src/libs/Discovery.ts:149-164 | after `group`: `on` sets commandNumber 4 and `switchOn`; `off` sets rfxFunction 3 and `switchOff`; anything else, `group level` included, changes nothing |
| HassCommands.UnitCommand | src/libs/Discovery.ts:145-164 | the same, stated on the command text: a first word other than `group`, in any case |
| HassCommands.GroupCommand | src/libs/Discovery.ts:145-164 | the same for a text whose first word is `group`, in any case |
| HassCommands.GroupCodeDiffers | src/libs/Discovery.ts:151-158 | the `group on` record is the `on` record with commandNumber 4 instead of 1; the `group off` record is the `off` record with rfxFunction 3 instead of 0 |
| HassCommands.ValueCaseInsensitive | src/libs/Discovery.ts:147 | the text and its lower-cased form have the same effect |
| HassCommands.OnlyCommandFieldsChange | src/libs/Discovery.ts:144-176 | a command changes no field other than rfxFunction, rfxCommand, commandNumber and rfxOpt |
| HassCommands.NonLightingIgnoresValue | src/libs/Discovery.ts:165-171 | outside the lighting families the text is ignored: lighting4 gets `sendData`, chime1 gets `chime`, any other type is unchanged |
| HassCommands.CommandRecord | src/libs/Discovery.ts:136-139 | the definition of the stored record after a command: the stored or new empty record, with the topic's deviceType, then the text applied |
| HassCommands.CommandCall | src/libs/Discovery.ts:140 | the definition of the one `sendCommand` call: the topic's type, subtype and entity topic, and the record's rfxFunction |
| HassCommands.CommandStatePublication | src/libs/Discovery.ts:141 | the definition of the retained state publication at `<devices>/<entityName>` |
| HassCommands.CommandRecordKeepsTopicType | src/libs/Discovery.ts:137-138 | whatever the stored record held, the record after a command carries the device type of the command topic |
| HassDocuments.FirstDeviceIndex | src/libs/Discovery.ts:190 | `find` returns the first configured device with an equal id, or none when no device has it |
| HassDocuments.LastUnitIndex | src/libs/Discovery.ts:202-210 | the unit chosen is the last one with an equal unit code and a non-empty name |
| HassDocuments.UnitTopicSnoc | src/libs/Discovery.ts:203-209 | each unit in turn: a matching unit takes over the topic and any other unit leaves it |
| HassDocuments.DeriveNames | src/libs/Discovery.ts:180-211 | the definition of the names a payload gets: device id, device name, device topic, entity id, entity name, entity topic; stated by HexPrefixStripped, IdWithoutHexPrefix, EntityNameNeverAliased, EntityTopicShape, UnitAliasReplacesTopic, UnitAliasOnlyChangesTopic, GroupIgnoresUnitCode and FriendlyNameOnlyChangesDeviceName |
| HassDocuments.HexPrefixStripped | src/libs/Discovery.ts:183 | the device id is `<subTypeValue>_` plus the id with only its first `0x` removed |
| HassDocuments.IdWithoutHexPrefix | src/libs/Discovery.ts:183 | an id without `0x` is used as it is |
| HassDocuments.EntityNameNeverAliased | src/libs/Discovery.ts:182-201 | the entity name is the id plus `_u`, the entity id is the device id plus `_u`, and the device topic is the device alias or else the id |
| HassDocuments.UnitAliasOnlyChangesTopic | src/libs/Discovery.ts:202-210 | configured units change the entity topic and no other name |
| HassDocuments.GroupIgnoresUnitCode | src/libs/Discovery.ts:198 | for a group the unit code has no effect on any name |
| HassDocuments.EntityTopicShape | src/libs/Discovery.ts:192-201 | without a matching unit alias the entity topic is the device topic, plus `/u` for a unit |
| HassDocuments.UnitAliasReplacesTopic | src/libs/Discovery.ts:202-210 | the last matching unit's name replaces the entity topic |
| HassDocuments.SwitchDocument | src/libs/Discovery.ts:229-256 | the definition of the switch document; stated by SwitchLabels and SwitchTopics |
| HassDocuments.SwitchPublications | src/libs/Discovery.ts:226-264 | the definition of what the switch publisher publishes; stated by SwitchPresence |
| HassDocuments.SwitchPresence | src/libs/Discovery.ts:229-258 | one switch document at `switch/<entityTopic>/config` iff the type is lighting1/2/3/5/6, and none otherwise |
| HassDocuments.SwitchLabels | src/libs/Discovery.ts:231-250 | a group gets `Group On`/`Group off` and the name `<entityId>_group`; otherwise `On`/`Off` and the entity id |
| HassDocuments.SwitchTopics | src/libs/Discovery.ts:244-254 | unique_id is `<entityId>_<prefix>`; state and attribute topics are `<devices>/<entityTopic>`; command_topic is `<base>/cmd/<type>/<subtype>/<entityTopic>/set` |
| HassDocuments.SwitchCommandTopicParses | src/libs/Discovery.ts:247 | for an entity topic that is a slash-free entity plus the unit suffix (no unit alias applies): the advertised command topic parses back to the payload's type, subtype and entity topic, and to the stored entity name when no device alias applies |
| HassDocuments.AliasedSwitchCommandTopicParses | src/libs/Discovery.ts:247 | for a slash-free entity topic (a unit alias, or no unit): the command topic parses back to the payload's type and subtype, with the entity topic as both entity topic and entity name |
| HassDocuments.UnitAliasCommandKeyDiffers | src/libs/Discovery.ts:117-137 | for unit 3 of device `0x1` aliased `kitchen`: discovery stores the entity name `0x1_3`, but the command topic parses to the entity name `kitchen` |
| HassDocuments.SensorDocument | src/libs/Discovery.ts:269-291 | the definition of one sensor document: the registry entry's own attributes, its name, ids and value template, and then the shared attributes |
| HassDocuments.SensorsFrom | src/libs/Discovery.ts:278-471 | the definition of the sensor documents: registry entries whose field is defined, in registry order |
| HassDocuments.SensorDocumentShape | src/libs/Discovery.ts:269-296 | a sensor is published at `sensor/<deviceTopic>/<key>/config`; it reads its own field and reports on `<devices>/<entityTopic>` |
| HassDocuments.SensorMembership | src/libs/Discovery.ts:278-471 | a sensor document is published iff its registry entry's field is defined |
| HassDocuments.SensorsAreDiscovery | src/libs/Discovery.ts:278-471 | every sensor document is a discovery publication, and there are at most as many as registry entries |
| HassDocuments.SensorsIndependent | src/libs/Discovery.ts:278-471 | which sensors appear depends only on which fields are defined |
| HassDocuments.SensorTopicInjective | src/libs/Discovery.ts:292-295 | sensor topics with different keys differ |
| HassDocuments.SensorTopicsDistinct | src/libs/Discovery.ts:278-471 | no two sensors of one device share a topic |
| HassDocuments.SensorsFromDistinct | src/libs/Discovery.ts:278-471 | registry entries with distinct topics give documents with pairwise distinct topics, so no entry is published twice |
| HassDocuments.SensorPublicationsDistinct | src/libs/Discovery.ts:278-471 | the sensor documents of one payload have pairwise distinct topics: exactly one document per defined field |
| HassDocuments.AllDocumentsAreDiscovery | src/libs/Discovery.ts:180-224 | everything one payload produces is retained, QoS 1, under the discovery topic |
| HassDocuments.FriendlyNameOnlyChangesDeviceName | src/libs/Discovery.ts:215-217 | the device name is a configured non-empty friendly name, else the device id; changing friendly names changes no other name |
| HassDocuments.DeviceDocumentsShared | src/libs/Discovery.ts:219-222 | every sensor and switch document of one payload carries the same device card, identified by `<prefix>_<deviceId>` and `<prefix>_<deviceName>` and named by the device name, and the same origin |
| HassDocuments.SensorsShareDevice | src/libs/Discovery.ts:269-275 | each sensor document carries the common device card and origin |
| HassDocuments.SwitchSharesDevice | src/libs/Discovery.ts:240-251 | the switch document carries the device card and origin it is given |
| HassDocuments.ConcatShareDevice | src/libs/Discovery.ts:221-222 | the sensor documents followed by the switch document still share one device card and origin |
| HassDocuments.ExamplePayloadDocuments | assets/mqtt_topics_and_messages.html-ePUriN8V.js:17-26 | the documented temperaturehumidity1 payload gives exactly linkquality, battery, humidity and temperature, in that order, and no switch |
| Homeassistant.HomeassistantDiscovery.constructor | src/libs/Discovery.ts:98-102 | the publisher holds the shared client, driver, settings and store; the origin version starts empty |
| Homeassistant.HomeassistantDiscovery.Start | src/libs/Discovery.ts:36-38 | the origin carries the software version from then on |
| Homeassistant.HomeassistantDiscovery.OnMQTTMessage | src/libs/Discovery.ts:114-142 | one command stores the updated record under its key, calls `sendCommand` once, publishes the whole record retained at `<devices>/<entityName>`, and changes nothing else |
| Homeassistant.HomeassistantDiscovery.ParseTopic | src/libs/Discovery.ts:117-132 | the names read off the topic are those of the topic's parse |
| Homeassistant.HomeassistantDiscovery.UpdateStoredState | src/libs/Discovery.ts:137-139 | the looked-up record gets the device type and then the text, in place; the store then holds it under the key |
| Homeassistant.HomeassistantDiscovery.UpdateEntityStateFromValue | src/libs/Discovery.ts:144-176 | the record becomes the command transition of its old value |
| Homeassistant.HomeassistantDiscovery.PublishDiscoveryToMQTT | src/libs/Discovery.ts:180-224 | the payload is stored under `{entityName, type, subtype}` with reason `event`; the sensor documents, then the switch document, are published |
| Homeassistant.HomeassistantDiscovery.EntityNames | src/libs/Discovery.ts:181-211 | the step-by-step renaming yields the derived device id, device topic, entity id, entity name and entity topic |
| Homeassistant.HomeassistantDiscovery.ResolveUnitTopic | src/libs/Discovery.ts:202-210 | the loop over the units leaves the topic of the last matching unit |
| Homeassistant.HomeassistantDiscovery.PublishDiscoverySwitchToMQTT | src/libs/Discovery.ts:226-264 | the outbox grows by the switch publications, one or none |
| Homeassistant.HomeassistantDiscovery.PublishDiscoverySensorToMQTT | src/libs/Discovery.ts:266-473 | the outbox grows by the sensor publications of the registry |
| Homeassistant.HomeassistantDiscovery.PublishSensors | src/libs/Discovery.ts:278-471 | one registry entry after another, the defined ones are published in order |
| Bridge.DeviceBridge | src/libs/Discovery.ts:501-505 | the definition of the bridge device; stated by BridgeDeviceName |
| Bridge.CoordinatorVersionFields | src/libs/Discovery.ts:506-519 | the definition of the coordinator version document's own keys |
| Bridge.VersionFields | src/libs/Discovery.ts:521-533 | the definition of the version document's own keys |
| Bridge.ConnectionStateFields | src/libs/Discovery.ts:536-551 | the definition of the connection state document's own keys; stated by ConnectionStateIsAvailability |
| Bridge.LogLevelFields | src/libs/Discovery.ts:554-569 | the definition of the log-level selector's own keys; stated by LogLevelSelectorTargetsBridge |
| Bridge.BridgePublications | src/libs/Discovery.ts:499-570 | the definition of the four bridge publications; stated by BridgeTopicsDistinct and BridgeDocumentsShared |
| Bridge.BridgeTopicsDistinct | src/libs/Discovery.ts:499-570 | four discovery publications on four distinct topics |
| Bridge.BridgeDocumentsShared | src/libs/Discovery.ts:501-566 | each bridge document belongs to the bridge device, is tied to the will topic, and carries the origin |
| Bridge.LogLevelSelectorTargetsBridge | src/libs/Discovery.ts:554-569 | the selector's command topic is `<base>/bridge/request/log_level` and it offers info, warn, error, debug |
| Bridge.ConnectionStateIsAvailability | src/libs/Discovery.ts:536-551 | the connection state reads the will topic, which is the availability topic, and is on for `online` and off for `offline` |
| Bridge.OwnKept | src/libs/Discovery.ts:536-551 | a bridge document's own keys override nothing of theirs: each shows its own value |
| Bridge.BridgeDeviceName | src/libs/Discovery.ts:501-505 | the bridge device is named `<hardware> <firmware>` and carries the software version |
| Bridge.BridgeDiscovery.constructor | src/libs/Discovery.ts:479-481 | the bridge publisher holds the shared client, driver, settings and logger |
| Bridge.BridgeDiscovery.Start | src/libs/Discovery.ts:483-485 | the origin carries the software version from then on |
| Bridge.BridgeDiscovery.OnMQTTMessage | src/libs/Discovery.ts:491-497 | exactly the log-level request topic sets the level to the body's `log_level`; any other topic changes nothing |
| Bridge.BridgeDiscovery.PublishDiscoveryToMQTT | src/libs/Discovery.ts:499-570 | the four bridge documents, in order: coordinator version, version, connection state, log level |
| Discovery.SubscribeTopic | src/libs/Discovery.ts:71-73 | two filters, the command filter and the bridge request filter |
| Discovery.RoutedToCommands | src/libs/Discovery.ts:76 | the definition of the routing test: the topic contains `<base>/cmd/` anywhere; stated by CommandPrefixRouted and NoCommandPrefixAfterBase |
| Discovery.CommandPrefixRouted | src/libs/Discovery.ts:75-81 | a topic starting with `<base>/cmd/` goes to the command path |
| Discovery.SwitchCommandTopicReachesCommands | src/libs/Discovery.ts:71-81 | a switch's command topic matches the first filter and is routed to the command path |
| Discovery.LogLevelTopicReachesBridge | src/libs/Discovery.ts:71-81 | the log-level request topic matches the second filter and is routed to the bridge |
| Discovery.NoCommandPrefixAfterBase | src/libs/Discovery.ts:75-81 | `<base>/cmd/` cannot occur in `<base><tail>` when the tail has no `c` |
| Discovery.Discovery.constructor | src/libs/Discovery.ts:55-59 | both publishers share the client, driver and settings |
| Discovery.Discovery.Start | src/libs/Discovery.ts:61-64 | both publishers carry the software version |
| Discovery.Discovery.OnMQTTMessage | src/libs/Discovery.ts:75-81 | a topic containing `<base>/cmd/` takes the whole command path and leaves the logger; any other topic leaves store, driver and outbox and goes to the bridge; no message writes to the store's write log |
| Discovery.Discovery.PublishDiscoveryToMQTT | src/libs/Discovery.ts:83-89 | a device request appends one write of the payload under `{entityName, type, subtype}` with reason `event` to the store's write log and publishes its documents; a bridge request publishes the four bridge documents and writes nothing |

## Left out

- Network and disk: MQTT, the serial radio and the store's persistence are reduced to an
  outbox, a call log and an in-memory map. Publish callbacks and errors are not modelled,
  and neither are `stop()` and the store's `start()`/`stop()`.
- `JSON.stringify` of the documents and of the state record: documents are kept as
  JavaScript objects (maps), so key order and text encoding are not modelled.
- `JSON.parse` of the log-level body: the message carries the parsed value. A body that is
  not JSON, on which the source throws, is not modelled.
- Numbers are integers. Floating-point readings are not modelled.
- `parseInt` is modelled only on decimal digit strings and numbers:
  - `UnitSegmentIsDecimal` requires a unit segment of the command topic to be digits;
  - `WellFormedPayload` requires a payload's `unitCode` to be a number;
  - configured unit codes are integers;
  - `NaN` is not modelled.
- `toLowerCase` is modelled on ASCII letters only.
- `rfxtrx.isGroup(payload)` is a call into the driver. Its answer is the input `isGroup`.
- `utils.getRfxcom2MQTTVersion()` is an environment lookup. The version is `Start`'s
  parameter.
- Logger output (`info`, `debug`, `error`) is a side effect only; the logger is just its
  level.
- `src/models/models.ts` is not part of this model.
  - `DeviceEntity` is modelled as an object with keys `identifiers` and `name`.
  - `DeviceBridge` is modelled as an object with keys `identifiers`, `name` and
    `sw_version`.
  - These key names are assumed from the constructor arguments.
- `src/libs/Settings.ts`, `src/libs/Mqtt.ts` and `src/libs/state.ts` are not part of this
  model. Only the settings fields and store operations the module uses are modelled.
- Homeassistant.HomeassistantDiscovery.ParseTopic, UpdateStoredState, EntityNames,
  ResolveUnitTopic and PublishSensors are not methods of the source. Each one is a step
  of a source method, and does what that step does.
- The ten sensor `if` blocks are one registry table, `Sensors`, published in order by
  a loop. This changes neither the documents nor their order.
- Discovery.Discovery.OnMQTTMessage requires that a routed command topic has a decimal
  unit segment, as `HomeassistantDiscovery.OnMQTTMessage` does.
- Bridge.BridgeDiscovery.PublishDiscoveryToMQTT requires the bridge information to hold a
  `coordinator` object. The source throws only when `coordinator` is `undefined` or `null`.
  A string or number `coordinator` is assumed away for simplicity.
- WellFormedPayload requires the payload to be an object whose `id` is a string. On any
  other `id`, `id.replace` throws a TypeError; that path is not modelled.
- JavaScript `null` is not a value of `JsValue`. Neither of its effects is modelled:
  - A `null` reading passes `!== undefined`, so its sensor document would be published.
  - A `null` device name or unit code would become the text `null` in topics and names.
- Unit codes are assumed below 2^53. Above that, `parseInt` and `String` lose precision,
  and integers here do not.
- `BridgeDiscovery` and `Discovery` take a `Logger` in their constructors. The source has
  no such parameter; it uses the module-wide `logger`. The parameter stands for that
  shared object.
- SwitchCommandTopicParses and AliasedSwitchCommandTopicParses cover only names without
  `/`:
  - SwitchCommandTopicParses covers an entity topic that is a slash-free entity plus the
    unit suffix.
  - AliasedSwitchCommandTopicParses covers a slash-free entity topic, such as a unit alias.
  - A device or unit alias that contains `/` changes the levels of the command topic, and
    no round trip is stated for it.
