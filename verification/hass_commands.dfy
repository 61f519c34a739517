/** The command path of `HomeassistantDiscovery`: how an inbound command topic is taken
    apart, and how a command text changes the stored state record of an entity. */
module HassCommands {
  import opened Strings
  import opened Json
  import opened Collaborators

  // ---------------------------------------------------------------------------
  // Command topics: <base>/cmd/<deviceType>/<subtype>/<id>[/<unitCode>]/set

  /** `dn[i]` on the split topic: a missing segment is `undefined`. */
  function Segment(dn: seq<string>, i: nat): JsValue
  {
    if i < |dn| then Str(dn[i]) else Undefined
  }

  /** Segment 5 is a unit code when it is present, non-empty and not `set`. */
  predicate HasUnitSegment(dn: seq<string>)
  {
    |dn| > 5 && dn[5] != "set" && |dn[5]| > 0
  }

  /** `parseInt` of the unit segment is modelled on decimal digit strings only. */
  predicate UnitSegmentIsDecimal(topic: string)
  {
    var dn := Split(topic, '/');
    HasUnitSegment(dn) ==> IsDigits(dn[5])
  }

  /** What the handler reads off a command topic. */
  datatype CommandTarget = CommandTarget(deviceType: JsValue, subtype: JsValue, entityName: JsValue, entityTopic: JsValue)

  /** The topic parsing of `onMQTTMessage`: the unit code, re-rendered from its parsed value,
      is appended with `_` to the entity name and with `/` to the entity topic. */
  function ParseCommandTopic(topic: string): CommandTarget
    requires UnitSegmentIsDecimal(topic)
  {
    var dn := Split(topic, '/');
    if HasUnitSegment(dn) then
      var unitCode := NatToString(ParseDigits(dn[5]));
      CommandTarget(Segment(dn, 2), Segment(dn, 3), Str(dn[4] + "_" + unitCode), Str(dn[4] + "/" + unitCode))
    else
      CommandTarget(Segment(dn, 2), Segment(dn, 3), Segment(dn, 4), Segment(dn, 4))
  }

  /** The `command_topic` a switch document advertises. */
  function CommandTopic(base: string, deviceType: string, subtype: string, entityTopic: string): string
  {
    base + "/cmd/" + deviceType + "/" + subtype + "/" + entityTopic + "/set"
  }

  /** Taking apart a topic made of separator-free segments: segments 2, 3 and 4 are the
      device type, the subtype and the entity; a sixth segment that is not `set` adds the
      unit code to both the entity name and the entity topic. */
  lemma ParseCommandSegments(dn: seq<string>)
    requires |dn| >= 5
    requires forall i :: 0 <= i < |dn| ==> '/' !in dn[i]
    requires HasUnitSegment(dn) ==> IsDigits(dn[5])
    ensures UnitSegmentIsDecimal(Join(dn, '/'))
    ensures var t := ParseCommandTopic(Join(dn, '/'));
      && t.deviceType == Str(dn[2]) && t.subtype == Str(dn[3])
      && (HasUnitSegment(dn) ==>
            var u := NatToString(ParseDigits(dn[5]));
            t.entityName == Str(dn[4] + "_" + u) && t.entityTopic == Str(dn[4] + "/" + u))
      && (!HasUnitSegment(dn) ==> t.entityName == Str(dn[4]) && t.entityTopic == Str(dn[4]))
  {
    SplitJoin(dn, '/');
  }

  /** The entity topic of a switch: the entity, followed by `/<unitCode>` for a unit. */
  function UnitEntityTopic(entity: string, unitCode: Option<nat>): string
  {
    if unitCode.Some? then entity + "/" + NatToString(unitCode.value) else entity
  }

  /** The entity name the handler derives for it. */
  function UnitEntityName(entity: string, unitCode: Option<nat>): string
  {
    if unitCode.Some? then entity + "_" + NatToString(unitCode.value) else entity
  }

  /** A switch's command topic, sent back as a command, is parsed into the type, subtype
      and entity topic it was built from, provided the base topic, type, subtype and entity
      contain no `/`. */
  lemma {:induction false} CommandTopicRoundTrip(base: string, deviceType: string, subtype: string, entity: string, unitCode: Option<nat>)
    requires '/' !in base && '/' !in deviceType && '/' !in subtype && '/' !in entity
    ensures var topic := CommandTopic(base, deviceType, subtype, UnitEntityTopic(entity, unitCode));
      && UnitSegmentIsDecimal(topic)
      && ParseCommandTopic(topic)
         == CommandTarget(Str(deviceType), Str(subtype), Str(UnitEntityName(entity, unitCode)), Str(UnitEntityTopic(entity, unitCode)))
  {
    var dn := CommandSegments(base, deviceType, subtype, entity, unitCode);
    CommandTopicJoin(base, deviceType, subtype, entity, unitCode);
    CommandSegmentsShape(base, deviceType, subtype, entity, unitCode);
    ParseCommandSegments(dn);
    if unitCode.Some? {
      ParseNatToString(unitCode.value);
    }
  }

  /** The levels of a command topic. */
  function CommandSegments(base: string, deviceType: string, subtype: string, entity: string, unitCode: Option<nat>): seq<string>
  {
    [base, "cmd", deviceType, subtype, entity] + UnitTail(unitCode)
  }

  function UnitTail(unitCode: Option<nat>): seq<string>
  {
    if unitCode.Some? then [NatToString(unitCode.value), "set"] else ["set"]
  }

  lemma CommandTopicJoin(base: string, deviceType: string, subtype: string, entity: string, unitCode: Option<nat>)
    ensures CommandTopic(base, deviceType, subtype, UnitEntityTopic(entity, unitCode))
         == Join(CommandSegments(base, deviceType, subtype, entity, unitCode), '/')
  {
    var tail := UnitTail(unitCode);
    JoinFive(base, "cmd", deviceType, subtype, entity, tail);
    TopicLiterals();
    if unitCode.Some? {
      var u := NatToString(unitCode.value);
      assert Join(tail, '/') == u + "/" + "set" by { assert tail[1..] == ["set"]; }
      TopicAssoc(base, "/", "cmd", deviceType, subtype, entity + "/" + u, "set");
      TopicAssoc(base, "/", "cmd", deviceType, subtype, entity, u + "/" + "set");
    } else {
      assert Join(tail, '/') == "set";
      TopicAssoc(base, "/", "cmd", deviceType, subtype, entity, "set");
    }
  }

  /** The literal separators of `CommandTopic`, as single levels between `/`. */
  lemma TopicLiterals()
    ensures "/cmd/" == "/" + "cmd" + "/" && "/set" == "/" + "set"
  {
  }

  /** Re-bracketing a topic written with separators `sl`. */
  lemma TopicAssoc(a: string, sl: string, b: string, c: string, d: string, e: string, f: string)
    ensures a + (sl + b + sl) + c + sl + d + sl + e + (sl + f) == a + sl + b + sl + c + sl + d + sl + e + sl + f
    ensures a + sl + b + sl + c + sl + d + sl + (e + sl + f) == a + sl + b + sl + c + sl + d + sl + e + sl + f
  {
  }

  /** The levels of a command topic are separator-free, and the sixth is a unit code exactly
      when there is one. */
  lemma CommandSegmentsShape(base: string, deviceType: string, subtype: string, entity: string, unitCode: Option<nat>)
    requires '/' !in base && '/' !in deviceType && '/' !in subtype && '/' !in entity
    ensures var dn := CommandSegments(base, deviceType, subtype, entity, unitCode);
      && |dn| >= 6 && dn[2] == deviceType && dn[3] == subtype && dn[4] == entity
      && (forall i :: 0 <= i < |dn| ==> '/' !in dn[i])
      && (HasUnitSegment(dn) <==> unitCode.Some?)
      && (unitCode.Some? ==> dn[5] == NatToString(unitCode.value) && IsDigits(dn[5]))
  {
    var dn := CommandSegments(base, deviceType, subtype, entity, unitCode);
    if unitCode.Some? {
      var u := NatToString(unitCode.value);
      assert '/' !in u by { assert forall i :: 0 <= i < |u| ==> IsDigit(u[i]); }
      assert u != "set" by { assert IsDigit(u[0]); }
      assert dn[5] == u;
    }
  }

  /** Joining five leading pieces before a tail writes them out one by one. */
  lemma JoinFive(a: string, b: string, c: string, d: string, e: string, tail: seq<string>)
    requires |tail| >= 1
    ensures Join([a, b, c, d, e] + tail, '/') == a + "/" + b + "/" + c + "/" + d + "/" + e + "/" + Join(tail, '/')
  {
    FiveShape(a, b, c, d, e, tail);
    JoinNested(a, b, c, d, e, tail);
    FiveAssoc(a, b, c, d, e, Join(tail, '/'));
  }

  /** The five leading levels, consed one at a time onto the tail. */
  lemma FiveShape(a: string, b: string, c: string, d: string, e: string, tail: seq<string>)
    ensures [a, b, c, d, e] + tail == [a] + ([b] + ([c] + ([d] + ([e] + tail))))
  {
  }

  /** The nested form `JoinNested` produces, re-bracketed to the flat topic. */
  lemma FiveAssoc(a: string, b: string, c: string, d: string, e: string, t: string)
    ensures a + "/" + (b + "/" + (c + "/" + (d + "/" + (e + "/" + t)))) == a + "/" + b + "/" + c + "/" + d + "/" + e + "/" + t
  {
  }

  /** `JoinCons` applied to each of the five leading levels. */
  lemma JoinNested(a: string, b: string, c: string, d: string, e: string, tail: seq<string>)
    requires |tail| >= 1
    ensures Join([a] + ([b] + ([c] + ([d] + ([e] + tail)))), '/') == a + "/" + (b + "/" + (c + "/" + (d + "/" + (e + "/" + Join(tail, '/')))))
  {
    JoinCons(e, tail, '/');
    JoinCons(d, [e] + tail, '/');
    JoinCons(c, [d] + ([e] + tail), '/');
    JoinCons(b, [c] + ([d] + ([e] + tail)), '/');
    JoinCons(a, [b] + ([c] + ([d] + ([e] + tail))), '/');
  }

  /** Joining a level before a non-empty rest puts one separator between them. */
  lemma JoinCons(a: string, rest: seq<string>, sep: char)
    requires |rest| >= 1
    ensures Join([a] + rest, sep) == a + [sep] + Join(rest, sep)
  {
    assert ([a] + rest)[1..] == rest;
  }

  // ---------------------------------------------------------------------------
  // The state transition of `updateEntityStateFromValue`

  /** The device families that take on/off/level commands. */
  predicate IsLightingFamily(t: JsValue)
  {
    t == Str("lighting1") || t == Str("lighting2") || t == Str("lighting3")
    || t == Str("lighting5") || t == Str("lighting6")
  }

  /** The record after the command text `value` has been applied to it, keyed on the
      record's `deviceType`. For the lighting families the lower-cased text is split on
      spaces: `on` sets `commandNumber` (4 after `group`, 1 otherwise) and the function
      `switchOn`; `off` sets the numeric function (3 after `group`, 0 otherwise) and the
      command `switchOff`; a first word `level` sets `setLevel` and the option to the second
      word. `lighting4` always gets `sendData`, `chime1` always `chime`; any other type is
      left as it is. */
  function StateAfterValue(st: Record, value: string): Record
  {
    var deviceType := Field(st, "deviceType");
    if IsLightingFamily(deviceType) then LightingCommand(st, Split(ToLower(value), ' '))
    else if deviceType == Str("lighting4") then st["rfxFunction" := Str("sendData")]
    else if deviceType == Str("chime1") then st["rfxFunction" := Str("chime")]
    else st
  }

  /** The lighting branch, on the lower-cased words of the command text. */
  function LightingCommand(st: Record, cmd: seq<string>): Record
    requires |cmd| >= 1
  {
    var group := cmd[0] == "group";
    var command := if group then Segment(cmd, 1) else Str(cmd[0]);
    if command == Str("on") then
      st["commandNumber" := Num(if group then 4 else 1)]["rfxFunction" := Str("switchOn")]
    else if command == Str("off") then
      st["rfxFunction" := Num(if group then 3 else 0)]["rfxCommand" := Str("switchOff")]
    else if cmd[0] == "level" then
      st["rfxFunction" := Str("setLevel")]["rfxOpt" := Segment(cmd, 1)]
    else st
  }

  function LowerAll(words: seq<string>): (r: seq<string>)
    ensures |r| == |words| && forall i :: 0 <= i < |words| ==> r[i] == ToLower(words[i])
  {
    seq(|words|, i requires 0 <= i < |words| => ToLower(words[i]))
  }

  /** Lower-casing a space-joined text lower-cases each word. */
  lemma {:induction false} ToLowerJoin(words: seq<string>)
    requires |words| >= 1
    ensures ToLower(Join(words, ' ')) == Join(LowerAll(words), ' ')
  {
    if |words| > 1 {
      ToLowerJoin(words[1..]);
      ToLowerConcat(words[0] + [' '], Join(words[1..], ' '));
      ToLowerConcat(words[0], [' ']);
      assert ToLower([' ']) == [' '];
      assert LowerAll(words)[1..] == LowerAll(words[1..]);
    }
  }

  /** The words of a space-joined text are the lower-cased words it was joined from. */
  lemma WordsOf(words: seq<string>)
    requires |words| >= 1 && forall i :: 0 <= i < |words| ==> ' ' !in words[i]
    ensures Split(ToLower(Join(words, ' ')), ' ') == LowerAll(words)
  {
    ToLowerJoin(words);
    var lowered := LowerAll(words);
    SplitJoin(lowered, ' ');
  }

  /** On a lighting device, a command text made of words is read as its lower-cased words. */
  lemma LightingText(st: Record, words: seq<string>)
    requires IsLightingFamily(Field(st, "deviceType"))
    requires |words| >= 1 && forall i :: 0 <= i < |words| ==> ' ' !in words[i]
    ensures StateAfterValue(st, Join(words, ' ')) == LightingCommand(st, LowerAll(words))
  {
    LightingDispatch(st, Join(words, ' '));
    WordsOf(words);
  }

  /** On a lighting device the command text is read as its lower-cased, space-split words. */
  lemma LightingDispatch(st: Record, value: string)
    requires IsLightingFamily(Field(st, "deviceType"))
    ensures StateAfterValue(st, value) == LightingCommand(st, Split(ToLower(value), ' '))
  {
  }

  /** The lighting branch on words whose first is not `group`. */
  lemma SingleVerb(st: Record, cmd: seq<string>)
    requires |cmd| >= 1 && cmd[0] != "group"
    ensures var r := LightingCommand(st, cmd);
      && (cmd[0] == "on" ==> r == st["commandNumber" := Num(1)]["rfxFunction" := Str("switchOn")])
      && (cmd[0] == "off" ==> r == st["rfxFunction" := Num(0)]["rfxCommand" := Str("switchOff")])
      && (cmd[0] == "level" ==> r == st["rfxFunction" := Str("setLevel")]["rfxOpt" := Segment(cmd, 1)])
      && (cmd[0] != "on" && cmd[0] != "off" && cmd[0] != "level" ==> r == st)
  {
    if cmd[0] != "on" {
      assert Str(cmd[0]) != Str("on");
    }
    if cmd[0] != "off" {
      assert Str(cmd[0]) != Str("off");
    }
  }

  /** The lighting branch on words whose first is `group`. */
  lemma GroupVerb(st: Record, cmd: seq<string>)
    requires |cmd| >= 1 && cmd[0] == "group"
    ensures var r := LightingCommand(st, cmd);
      && (|cmd| > 1 && cmd[1] == "on" ==> r == st["commandNumber" := Num(4)]["rfxFunction" := Str("switchOn")])
      && (|cmd| > 1 && cmd[1] == "off" ==> r == st["rfxFunction" := Num(3)]["rfxCommand" := Str("switchOff")])
      && (|cmd| == 1 || (cmd[1] != "on" && cmd[1] != "off") ==> r == st)
  {
    assert cmd[0] != "level";
    if |cmd| > 1 && cmd[1] != "on" {
      assert Str(cmd[1]) != Str("on");
    }
    if |cmd| > 1 && cmd[1] != "off" {
      assert Str(cmd[1]) != Str("off");
    }
  }

  /** A command text whose first word is not `group`, on a lighting device. */
  lemma UnitCommand(st: Record, words: seq<string>)
    requires IsLightingFamily(Field(st, "deviceType"))
    requires |words| >= 1 && forall i :: 0 <= i < |words| ==> ' ' !in words[i]
    requires ToLower(words[0]) != "group"
    ensures var r := StateAfterValue(st, Join(words, ' '));
      var verb := ToLower(words[0]);
      && (verb == "on" ==> r == st["commandNumber" := Num(1)]["rfxFunction" := Str("switchOn")])
      && (verb == "off" ==> r == st["rfxFunction" := Num(0)]["rfxCommand" := Str("switchOff")])
      && (verb == "level" ==>
            r == st["rfxFunction" := Str("setLevel")]["rfxOpt" := if |words| > 1 then Str(ToLower(words[1])) else Undefined])
      && (verb != "on" && verb != "off" && verb != "level" ==> r == st)
  {
    LightingText(st, words);
    var cmd := LowerAll(words);
    assert cmd[0] == ToLower(words[0]);
    assert Segment(cmd, 1) == if |words| > 1 then Str(ToLower(words[1])) else Undefined;
    SingleVerb(st, cmd);
  }

  /** A command text whose first word is `group`, on a lighting device: the second word is
      the verb, `group level` is not recognised. */
  lemma GroupCommand(st: Record, words: seq<string>)
    requires IsLightingFamily(Field(st, "deviceType"))
    requires |words| >= 1 && forall i :: 0 <= i < |words| ==> ' ' !in words[i]
    requires ToLower(words[0]) == "group"
    ensures var r := StateAfterValue(st, Join(words, ' '));
      var verb := if |words| > 1 then ToLower(words[1]) else "";
      && (|words| > 1 && verb == "on" ==> r == st["commandNumber" := Num(4)]["rfxFunction" := Str("switchOn")])
      && (|words| > 1 && verb == "off" ==> r == st["rfxFunction" := Num(3)]["rfxCommand" := Str("switchOff")])
      && (|words| == 1 || (verb != "on" && verb != "off") ==> r == st)
  {
    LightingText(st, words);
    var cmd := LowerAll(words);
    assert cmd[0] == "group";
    assert |words| > 1 ==> cmd[1] == ToLower(words[1]);
    GroupVerb(st, cmd);
  }

  /** `group <verb>` differs from `<verb>` in one code only: group on and on differ in
      `commandNumber` (4 against 1), group off and off in the numeric `rfxFunction` (3
      against 0); the two records agree on every other property. */
  lemma GroupCodeDiffers(st: Record, verb: string)
    requires IsLightingFamily(Field(st, "deviceType"))
    requires ' ' !in verb && (ToLower(verb) == "on" || ToLower(verb) == "off")
    ensures var single := StateAfterValue(st, verb);
      var group := StateAfterValue(st, "group " + verb);
      && (ToLower(verb) == "on" ==>
            Field(single, "commandNumber") == Num(1) && Field(group, "commandNumber") == Num(4)
            && Field(single, "rfxFunction") == Field(group, "rfxFunction") == Str("switchOn"))
      && (ToLower(verb) == "off" ==>
            Field(single, "rfxFunction") == Num(0) && Field(group, "rfxFunction") == Num(3)
            && Field(single, "rfxCommand") == Field(group, "rfxCommand") == Str("switchOff"))
      && (ToLower(verb) == "on" ==> group == single["commandNumber" := Num(4)])
      && (ToLower(verb) == "off" ==> group == single["rfxFunction" := Num(3)])
  {
    var v := ToLower(verb);
    SingleWordText(st, verb);
    GroupWordText(st, verb);
    SingleVerb(st, [v]);
    GroupVerb(st, ["group", v]);
    VerbCodes(st);
  }

  /** The group record is the single one with its code overwritten. */
  lemma VerbCodes(st: Record)
    ensures st["commandNumber" := Num(4)]["rfxFunction" := Str("switchOn")]
         == st["commandNumber" := Num(1)]["rfxFunction" := Str("switchOn")]["commandNumber" := Num(4)]
    ensures st["rfxFunction" := Num(3)]["rfxCommand" := Str("switchOff")]
         == st["rfxFunction" := Num(0)]["rfxCommand" := Str("switchOff")]["rfxFunction" := Num(3)]
  {
  }

  lemma SingleWordText(st: Record, verb: string)
    requires IsLightingFamily(Field(st, "deviceType")) && ' ' !in verb
    ensures StateAfterValue(st, verb) == LightingCommand(st, [ToLower(verb)])
  {
    assert Join([verb], ' ') == verb;
    LightingText(st, [verb]);
    assert LowerAll([verb]) == [ToLower(verb)];
  }

  lemma GroupWordText(st: Record, verb: string)
    requires IsLightingFamily(Field(st, "deviceType")) && ' ' !in verb
    ensures StateAfterValue(st, "group " + verb) == LightingCommand(st, ["group", ToLower(verb)])
  {
    GroupJoin(verb);
    LightingText(st, ["group", verb]);
    GroupLower(verb);
  }

  lemma GroupJoin(verb: string)
    ensures Join(["group", verb], ' ') == "group " + verb
  {
    assert ["group", verb][1..] == [verb];
  }

  lemma GroupLower(verb: string)
    ensures LowerAll(["group", verb]) == ["group", ToLower(verb)]
  {
    assert ToLower("group") == "group";
  }

  /** Commands are case-insensitive. */
  lemma ValueCaseInsensitive(st: Record, value: string)
    ensures StateAfterValue(st, value) == StateAfterValue(st, ToLower(value))
  {
    ToLowerIdempotent(value);
  }

  /** A command changes at most the four command properties of the record. */
  lemma OnlyCommandFieldsChange(st: Record, value: string, key: string)
    requires key != "rfxFunction" && key != "rfxCommand" && key != "commandNumber" && key != "rfxOpt"
    ensures Field(StateAfterValue(st, value), key) == Field(st, key)
  {
  }

  /** Outside the lighting families the command text is not read at all. */
  lemma NonLightingIgnoresValue(st: Record, value1: string, value2: string)
    requires !IsLightingFamily(Field(st, "deviceType"))
    ensures StateAfterValue(st, value1) == StateAfterValue(st, value2)
    ensures Field(st, "deviceType") == Str("lighting4") ==> Field(StateAfterValue(st, value1), "rfxFunction") == Str("sendData")
    ensures Field(st, "deviceType") == Str("chime1") ==> Field(StateAfterValue(st, value1), "rfxFunction") == Str("chime")
    ensures Field(st, "deviceType") != Str("lighting4") && Field(st, "deviceType") != Str("chime1") ==> StateAfterValue(st, value1) == st
  {
  }

  // ---------------------------------------------------------------------------
  // The effect of one command message

  /** The state-store key the handler looks up: the entity name and device type from the
      topic, the subtype from the message object (not from the topic). */
  function CommandKey(msg: MqttMessage): StateKey
    requires UnitSegmentIsDecimal(msg.topic)
  {
    var t := ParseCommandTopic(msg.topic);
    StateKey(t.entityName, t.deviceType, msg.subtype)
  }

  /** The record the store hands out for a key: the stored one, or a new empty one. */
  function StoredOrEmpty(contents: map<StateKey, Record>, key: StateKey): Record
  {
    if key in contents then contents[key] else map[]
  }

  /** The record after a command: `deviceType` forced from the topic, then the text applied. */
  function CommandRecord(contents: map<StateKey, Record>, msg: MqttMessage): Record
    requires UnitSegmentIsDecimal(msg.topic)
  {
    var t := ParseCommandTopic(msg.topic);
    StateAfterValue(StoredOrEmpty(contents, CommandKey(msg))["deviceType" := t.deviceType], msg.text)
  }

  /** The one `sendCommand` call a command message makes, whatever its device type. */
  function CommandCall(contents: map<StateKey, Record>, msg: MqttMessage): RfCommand
    requires UnitSegmentIsDecimal(msg.topic)
  {
    var t := ParseCommandTopic(msg.topic);
    RfCommand(t.deviceType, t.subtype, Field(CommandRecord(contents, msg), "rfxFunction"), t.entityTopic)
  }

  /** The retained publication of the whole updated record at `<devices>/<entityName>`. */
  function CommandStatePublication(devicesTopic: string, contents: map<StateKey, Record>, msg: MqttMessage): Publication
    requires UnitSegmentIsDecimal(msg.topic)
  {
    var t := ParseCommandTopic(msg.topic);
    Publication(devicesTopic + "/" + ToJsString(t.entityName), Obj(CommandRecord(contents, msg)), true, 1, None)
  }

  /** The device type the topic names always ends up in the stored record, and the function
      sent to the driver is the one stored. */
  lemma CommandRecordKeepsTopicType(contents: map<StateKey, Record>, msg: MqttMessage)
    requires UnitSegmentIsDecimal(msg.topic)
    ensures Field(CommandRecord(contents, msg), "deviceType") == ParseCommandTopic(msg.topic).deviceType
    ensures CommandCall(contents, msg).rfxFunction == Field(CommandRecord(contents, msg), "rfxFunction")
    ensures CommandCall(contents, msg).deviceType == ParseCommandTopic(msg.topic).deviceType
  {
  }
}
