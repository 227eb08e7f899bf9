/**
  The board's MQTT publisher (sketches/sensor_humidity_wifi/mqtt_client_manager.cpp):
  the class `MqttClientManager` owns a TLS client and a PubSubClient, takes its
  endpoint, identity and TLS material from a `LoadInfo`, and publishes a
  batch of mesh readings as one JSON document.

  The broker is an input: whether it accepts a connection, whether the
  connection survives a `loop`, and whether a publish is written out. Every
  guard reads `mqttClient.connected()`, the socket's current state, so a
  session the broker or the network drops between two calls is the event
  `SessionLost`, after which every guard sees no session. The transport's
  effects are recorded as a trace of `TransportCall`s.
 */
module MqttManager {
  import opened Wrappers
  import opened Json
  import opened DeviceInfo

  /** The port `begin` hands to `setServer`. */
  const BrokerPort: int := 8883
  /** PubSubClient's `publish(topic, payload, length)` sends at QoS 0. */
  const PublishQos: int := 0

  /** One sensor reading of the mesh (`struct Reading`). */
  datatype Reading = Reading(nodeId: int, humidity: real, raw: int)

  /** The effects of the manager on its PubSubClient, in order. */
  datatype TransportCall =
    | Connect(clientId: string)
    | Loop
    | Publish(topic: string, payload: Json, qos: int)
    | Disconnect

  /** The object the loop appends to the `readings` array for `r`. */
  function ReadingObject(r: Reading): (o: Json)
    ensures ReadingOf(o) == Some(r)
  {
    JObj(map["nodeId" := JInt(r.nodeId), "humidity" := JReal(r.humidity), "raw" := JInt(r.raw)])
  }

  /** The document `publishReadings` serializes: no `userId`, the mesh id, the clock and one object per reading. */
  function ReadingsPayload(meshId: string, now: int, readings: seq<Reading>): (doc: Json)
    ensures Get(doc, "meshId") == Some(JStr(meshId)) && Get(doc, "timestamp") == Some(JInt(now))
    ensures Get(doc, "readings").Some? && Get(doc, "readings").value.JArr?
    ensures var items := Get(doc, "readings").value.items;
            |items| == |readings| && forall k :: 0 <= k < |items| ==> ReadingOf(items[k]) == Some(readings[k])
  {
    JObj(map[
      "meshId" := JStr(meshId),
      "timestamp" := JInt(now),
      "readings" := JArr(seq(|readings|, k requires 0 <= k < |readings| => ReadingObject(readings[k])))])
  }

  /** What a subscriber recovers from one element of `readings`. */
  function ReadingOf(j: Json): (r: Option<Reading>)
    ensures r.Some? ==> Get(j, "nodeId") == Some(JInt(r.value.nodeId)) && Get(j, "raw") == Some(JInt(r.value.raw))
  {
    match (Get(j, "nodeId"), Get(j, "humidity"), Get(j, "raw"))
    case (Some(JInt(n)), Some(JReal(h)), Some(JInt(w))) => Some(Reading(n, h, w))
    case _ => None
  }

  /** What a subscriber recovers from the `readings` array: every element must be a reading. */
  function ReadingsOf(items: seq<Json>): (rs: Option<seq<Reading>>)
    ensures rs.Some? ==> |rs.value| == |items|
  {
    if |items| == 0 then Some([])
    else
      match (ReadingOf(items[0]), ReadingsOf(items[1..]))
      case (Some(r), Some(rest)) => Some([r] + rest)
      case _ => None
  }

  /** A subscriber's view of a published document: mesh id, timestamp and readings. */
  function PayloadOf(doc: Json): Option<(string, int, seq<Reading>)>
  {
    var (m, t, r) := (Get(doc, "meshId"), Get(doc, "timestamp"), Get(doc, "readings"));
    if m.Some? && m.value.JStr? && t.Some? && t.value.JInt? && r.Some? && r.value.JArr?
       && ReadingsOf(r.value.items).Some?
    then Some((m.value.s, t.value.i, ReadingsOf(r.value.items).value))
    else None
  }

  /** The array `publishReadings` builds decodes back to the readings, in order. */
  lemma {:induction false} ReadingsRoundTrip(readings: seq<Reading>)
    ensures ReadingsOf(seq(|readings|, k requires 0 <= k < |readings| => ReadingObject(readings[k]))) == Some(readings)
    decreases |readings|
  {
    var items := seq(|readings|, k requires 0 <= k < |readings| => ReadingObject(readings[k]));
    if |readings| > 0 {
      var tail := readings[1..];
      var tailItems := seq(|tail|, k requires 0 <= k < |tail| => ReadingObject(tail[k]));
      assert items[1..] == tailItems;
      ReadingsRoundTrip(tail);
      var r := readings[0];
      assert ReadingOf(items[0]) == Some(r) by {
        assert items[0] == ReadingObject(r);
      }
      assert readings == [r] + tail;
    }
  }

  /** A subscriber decoding the published document gets back the mesh id, the clock and every reading in order. */
  lemma PayloadRoundTrip(meshId: string, now: int, readings: seq<Reading>)
    ensures PayloadOf(ReadingsPayload(meshId, now, readings)) == Some((meshId, now, readings))
  {
    ReadingsRoundTrip(readings);
  }

  /** The document has exactly three members; the owner id is not among them. */
  lemma PayloadMembers(meshId: string, now: int, readings: seq<Reading>)
    ensures ReadingsPayload(meshId, now, readings).JObj?
    ensures ReadingsPayload(meshId, now, readings).fields.Keys == {"meshId", "timestamp", "readings"}
    ensures Get(ReadingsPayload(meshId, now, readings), "userId") == None
  {
  }

  class MqttClientManager {
    /** The credential store `begin` was given; `nullptr` until then. */
    var info: LoadInfo?
    /** The broker address and port handed to `setServer`. */
    var host: string
    var port: int
    /** The TLS material installed in the secure client. */
    var caCert: string
    var certificate: string
    var privateKey: string
    /** `mqttClient.connected()`. */
    var connected: bool
    /** Everything sent through the PubSubClient so far. */
    var calls: seq<TransportCall>

    /** A session exists only after `connect`, which needs the credential store. */
    ghost predicate Valid()
      reads this
    {
      connected ==> info != null
    }

    /** `MqttClientManager()`: no credential store, no session. */
    constructor ()
      ensures Valid()
      ensures info == null && !connected && calls == []
      ensures host == "" && port == 0 && caCert == "" && certificate == "" && privateKey == ""
    {
      info := null;
      host, port := "", 0;
      caCert, certificate, privateKey := "", "", "";
      connected := false;
      calls := [];
    }

    /** `begin`: remember the store and point the client at its endpoint on port 8883. */
    method Begin(infoPtr: LoadInfo)
      requires Valid()
      modifies this`info, this`host, this`port
      ensures Valid()
      ensures info == infoPtr && host == infoPtr.awsIotEndpoint && port == BrokerPort
    {
      info := infoPtr;
      host, port := infoPtr.awsIotEndpoint, BrokerPort;
    }

    /** `loop`: service the session only while connected; the broker decides whether it survives. */
    method Loop(stillConnected: bool)
      requires Valid()
      modifies this`connected, this`calls
      ensures Valid()
      ensures old(connected) ==> calls == old(calls) + [TransportCall.Loop] && connected == stillConnected
      ensures !old(connected) ==> calls == old(calls) && !connected
    {
      if connected {
        calls := calls + [TransportCall.Loop];
        connected := stillConnected;
      }
    }

    /**
      `connect`: false without a credential store; true at once when already
      connected; otherwise install the store's TLS material, connect with the
      thing name as client id, and report whether the broker accepted.
     */
    method Connect(accepted: bool) returns (ok: bool)
      requires Valid()
      modifies this`caCert, this`certificate, this`privateKey, this`connected, this`calls
      ensures Valid()
      ensures old(info) == null ==> !ok && unchanged(this)
      ensures old(info) != null && old(connected) ==> ok && unchanged(this)
      ensures old(info) != null && !old(connected) ==>
                && caCert == info.caCert && certificate == info.deviceCert && privateKey == info.privateKey
                && calls == old(calls) + [TransportCall.Connect(info.thingName)]
                && connected == accepted && ok == accepted
    {
      if info == null {
        return false;
      }
      if connected {
        return true;
      }
      caCert, certificate, privateKey := info.caCert, info.deviceCert, info.privateKey;
      calls := calls + [TransportCall.Connect(info.thingName)];
      connected := accepted;
      ok := accepted;
    }

    /**
      The broker or the network closes the socket between two calls: from
      then on `connected()` reports false, and nothing is sent.
     */
    method SessionLost()
      requires Valid()
      modifies this`connected
      ensures Valid()
      ensures !connected
    {
      connected := false;
    }

    /** `isConnected`: the client's session state. */
    method IsConnected() returns (r: bool)
      ensures r <==> connected
    {
      r := connected;
    }

    /** `disconnect`: close the session if there is one. */
    method Disconnect()
      requires Valid()
      modifies this`connected, this`calls
      ensures Valid()
      ensures !connected
      ensures calls == if old(connected) then old(calls) + [TransportCall.Disconnect] else old(calls)
    {
      if connected {
        calls := calls + [TransportCall.Disconnect];
        connected := false;
      }
    }

    /**
      `publishReadings`: nothing is sent without a session; otherwise one
      document holding every reading is published at QoS 0 on the gateway
      topic, and the result is whether the client wrote it out.
     */
    method PublishReadings(readings: seq<Reading>, now: int, delivered: bool) returns (ok: bool)
      requires Valid()
      modifies this`calls
      ensures !connected ==> !ok && calls == old(calls)
      ensures connected ==>
                && calls == old(calls) + [Publish(info.gatewayTopic, ReadingsPayload(info.thingName, now, readings), PublishQos)]
                && ok == delivered
    {
      if !connected {
        return false;
      }
      var items: seq<Json> := [];
      for i := 0 to |readings|
        invariant items == seq(i, k requires 0 <= k < i => ReadingObject(readings[k]))
      {
        var r := readings[i];
        items := items + [JObj(map["nodeId" := JInt(r.nodeId), "humidity" := JReal(r.humidity), "raw" := JInt(r.raw)])];
      }
      var doc := JObj(map["meshId" := JStr(info.thingName), "timestamp" := JInt(now), "readings" := JArr(items)]);
      assert doc == ReadingsPayload(info.thingName, now, readings);
      calls := calls + [Publish(info.gatewayTopic, doc, PublishQos)];
      ok := delivered;
    }
  }

  /**
    A session the broker drops after a successful connect: the next
    `publishReadings` reports failure and sends nothing, although no `loop`
    ran in between.
   */
  method DroppedSessionPublish(info: LoadInfo, readings: seq<Reading>, now: int)
    returns (ok: bool, calls: seq<TransportCall>)
    ensures !ok
    ensures calls == [TransportCall.Connect(info.thingName)]
  {
    var manager := new MqttClientManager();
    manager.Begin(info);
    var connected := manager.Connect(true);
    manager.SessionLost();
    ok := manager.PublishReadings(readings, now, true);
    calls := manager.calls;
  }
}
