/** The collaborators the discovery engine talks to, reduced to what it can observe of them:
    the MQTT client becomes an outbox of publications, the RF driver a log of `sendCommand`
    calls, the state store an in-memory map, the logger its level. The network, the radio
    and the disk behind them are not modelled. */
module Collaborators {
  import opened Strings
  import opened Json

  // ---------------------------------------------------------------------------
  // MQTT

  /** An inbound MQTT message: its topic, its body as UTF-8 text, the `subtype` property
      read off the message object, and the body as `JSON.parse` would return it. */
  datatype MqttMessage = MqttMessage(topic: string, text: string, subtype: JsValue, json: JsValue)

  /** One call of `mqtt.publish(topic, payload, callback, {retain, qos}, base?)`;
      `base` is `None` when the client's own base topic is used. */
  datatype Publication = Publication(topic: string, payload: JsValue, retain: bool, qos: nat, base: Option<string>)

  class MqttClient {
    var outbox: seq<Publication>

    constructor()
      ensures outbox == []
    {
      outbox := [];
    }

    method Publish(topic: string, payload: JsValue, retain: bool, qos: nat, base: Option<string>)
      modifies this
      ensures outbox == old(outbox) + [Publication(topic, payload, retain, qos, base)]
    {
      outbox := outbox + [Publication(topic, payload, retain, qos, base)];
    }
  }

  /** Topic filters under the `+`/`#` wildcard rules of section 4.7 of the MQTT 3.1.1
      standard: `+` matches one level, a final `#` matches its parent level and any number of
      levels below it. */
  predicate LevelsMatch(filter: seq<string>, topic: seq<string>)
  {
    if |filter| == 0 then |topic| == 0
    else if filter[0] == "#" then |filter| == 1
    else |topic| > 0 && (filter[0] == "+" || filter[0] == topic[0]) && LevelsMatch(filter[1..], topic[1..])
  }

  predicate TopicMatches(filter: string, topic: string)
  {
    LevelsMatch(Split(filter, '/'), Split(topic, '/'))
  }

  /** Levels without wildcards match themselves, so a common prefix of such levels can be
      dropped from a filter and a topic. */
  lemma {:induction false} LevelsMatchCommonPrefix(prefix: seq<string>, filter: seq<string>, topic: seq<string>)
    requires forall i :: 0 <= i < |prefix| ==> prefix[i] != "#" && prefix[i] != "+"
    ensures LevelsMatch(prefix + filter, prefix + topic) == LevelsMatch(filter, topic)
  {
    if |prefix| == 0 {
      assert prefix + filter == filter && prefix + topic == topic;
    } else {
      assert (prefix + filter)[0] == prefix[0] && (prefix + topic)[0] == prefix[0];
      assert (prefix + filter)[1..] == prefix[1..] + filter;
      assert (prefix + topic)[1..] == prefix[1..] + topic;
      LevelsMatchCommonPrefix(prefix[1..], filter, topic);
    }
  }

  /** A filter `<p>/#` matches every topic `<p>/<rest>`, whatever `<rest>` is, when `<p>`
      holds no wildcard. */
  lemma {:induction false} MultiLevelWildcardMatches(p: string, rest: string)
    requires '#' !in p && '+' !in p
    ensures TopicMatches(p + "/#", p + "/" + rest)
  {
    SplitConcat(p, "#", '/');
    SplitConcat(p, rest, '/');
    assert p + "/#" == p + ['/'] + "#";
    assert p + "/" + rest == p + ['/'] + rest;
    SplitNoSeparator("#", '/');
    var levels := Split(p, '/');
    forall i | 0 <= i < |levels| ensures levels[i] != "#" && levels[i] != "+" {
      NoWildcardLevel(p, i);
    }
    LevelsMatchCommonPrefix(levels, ["#"], Split(rest, '/'));
  }

  /** Every level of a string is a piece of it, so it has no character the string lacks. */
  lemma {:induction false} NoWildcardLevel(p: string, i: nat)
    requires '#' !in p && '+' !in p
    requires i < |Split(p, '/')|
    ensures Split(p, '/')[i] != "#" && Split(p, '/')[i] != "+"
  {
    if |p| > 0 {
      var rest := Split(p[1..], '/');
      assert '#' !in p[1..] && '+' !in p[1..];
      if p[0] == '/' {
        if i > 0 { NoWildcardLevel(p[1..], i - 1); }
      } else if i == 0 {
        var level := [p[0]] + rest[0];
        assert Split(p, '/')[0] == level;
        assert p[0] in p;
        assert level[0] == p[0] && p[0] != '#' && p[0] != '+';
        assert "#"[0] == '#' && "+"[0] == '+';
      } else {
        NoWildcardLevel(p[1..], i);
      }
    }
  }

  // ---------------------------------------------------------------------------
  // RF driver

  /** One call of `rfxtrx.sendCommand(deviceType, subtype, rfxFunction, entityTopic)`. */
  datatype RfCommand = RfCommand(deviceType: JsValue, subtype: JsValue, rfxFunction: JsValue, entityTopic: JsValue)

  class RfxcomDriver {
    var sent: seq<RfCommand>

    constructor()
      ensures sent == []
    {
      sent := [];
    }

    method SendCommand(deviceType: JsValue, subtype: JsValue, rfxFunction: JsValue, entityTopic: JsValue)
      modifies this
      ensures sent == old(sent) + [RfCommand(deviceType, subtype, rfxFunction, entityTopic)]
    {
      sent := sent + [RfCommand(deviceType, subtype, rfxFunction, entityTopic)];
    }
  }

  // ---------------------------------------------------------------------------
  // State store

  /** The store's key `{id, type, subtype}`. */
  datatype StateKey = StateKey(id: JsValue, deviceType: JsValue, subtype: JsValue)

  /** A stored state record: an object whose properties the command path assigns in place. */
  class EntityState {
    var fields: Record

    constructor(fields: Record)
      ensures this.fields == fields
    {
      this.fields := fields;
    }
  }

  /** One call of `state.set(key, payload, reason)`. */
  datatype StoreWrite = StoreWrite(key: StateKey, reason: string)

  class StateStore {
    var records: map<StateKey, EntityState>
    var writes: seq<StoreWrite>

    /** No two keys share a record object. */
    ghost predicate Valid()
      reads this
    {
      forall k1, k2 :: k1 in records && k2 in records && k1 != k2 ==> records[k1] != records[k2]
    }

    /** The stored records as values. */
    ghost function Contents(): map<StateKey, Record>
      reads this, records.Values
    {
      map k | k in records :: records[k].fields
    }

    constructor()
      ensures Valid() && records == map[] && writes == []
    {
      records := map[];
      writes := [];
    }

    /** `state.get(key)`: the stored record, or a new empty one that is stored from now on. */
    method Get(key: StateKey) returns (s: EntityState)
      requires Valid()
      modifies this
      ensures Valid() && writes == old(writes)
      ensures key in records && s == records[key]
      ensures key in old(records) ==> records == old(records)
      ensures key !in old(records) ==> fresh(s) && records == old(records)[key := s]
      ensures Contents() == if key in old(records) then old(Contents()) else old(Contents())[key := map[]]
    {
      if key in records {
        s := records[key];
      } else {
        s := new EntityState(map[]);
        records := records[key := s];
      }
    }

    /** A record changed in place through the object the store hands out shows in the
        contents under its key, and under no other key. */
    twostate lemma InPlaceUpdate(key: StateKey)
      requires old(Valid()) && unchanged(this) && key in records
      requires forall k :: k in records && k != key ==> unchanged(records[k])
      ensures Valid()
      ensures Contents() == old(Contents())[key := records[key].fields]
    {
    }

    /** `state.set(key, payload, reason)`: the whole record is replaced by the payload. */
    method Set(key: StateKey, payload: Record, reason: string)
      requires Valid()
      modifies this
      ensures Valid()
      ensures key in records && fresh(records[key])
      ensures Contents() == old(Contents())[key := payload]
      ensures writes == old(writes) + [StoreWrite(key, reason)]
    {
      var s := new EntityState(payload);
      records := records[key := s];
      writes := writes + [StoreWrite(key, reason)];
    }
  }

  // ---------------------------------------------------------------------------
  // Logger

  /** The process-wide logger, reduced to its level. */
  class Logger {
    var level: JsValue

    constructor(level: JsValue)
      ensures this.level == level
    {
      this.level := level;
    }

    method SetLevel(level: JsValue)
      modifies this
      ensures this.level == level
    {
      this.level := level;
    }
  }
}
