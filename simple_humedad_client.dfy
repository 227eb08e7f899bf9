/**
  The humidity gateway client (simple_humedad_client.py): it reads the
  gateway's metadata, takes the owner id from the publish topic, connects to
  the broker with the gateway's certificate and publishes a batch of
  simulated readings on every tick until it is interrupted.

  The MQTT client is modelled by the sequence of calls the program makes on
  it; whether `connect` raises is an input. The clock, the random draws and
  the moment of the keyboard interrupt are inputs too: one `Tick` per pass of
  the publish loop that completed its publish.
 */
module HumidityGateway {
  import opened Wrappers
  import opened Json
  import opened Text
  import opened Posix

  const AwsIotEndpoint: string := "afusoll07pjc2-ats.iot.us-east-2.amazonaws.com"
  const ThingName: string := "sensores_h"
  const BrokerPort: int := 8883
  const KeepAliveSeconds: int := 60
  /** QoS 1, at-least-once delivery (section 4.3.2 of MQTT Version 3.1.1). */
  const PublishQos: int := 1
  const DefaultSensorIds: seq<string> := ["sensor-10", "sensor-11", "sensor-12", "sensor-13"]

  // ---------------------------------------------------------------------
  //  Configuration loaded at start-up
  // ---------------------------------------------------------------------

  /** The two directories the paths are built from: `os.getcwd()` and the script's own directory (`BASE_DIR`). */
  datatype Dirs = Dirs(cwd: string, scriptDir: string)

  /** `CREDENTIALS_DIR`: the gateway's folder, two levels below the working directory. */
  function CredentialsDir(d: Dirs): (dir: string)
    ensures dir == d.cwd + Separator(d.cwd) + "gateways/sensores_h"
  {
    var c := d.cwd + Separator(d.cwd);
    JoinBelow(c, "gateways", ThingName);
    assert "gateways" + "/" + ThingName == "gateways/sensores_h";
    PathJoin(PathJoin(d.cwd, "gateways"), ThingName)
  }

  /** `METADATA_PATH`: `metadata.json` inside the gateway's folder. */
  function MetadataPath(d: Dirs): (p: string)
    ensures p == d.cwd + Separator(d.cwd) + "gateways/sensores_h/metadata.json"
  {
    JoinBelow(d.cwd + Separator(d.cwd), "gateways/sensores_h", "metadata.json");
    assert "gateways/sensores_h" + "/" + "metadata.json" == "gateways/sensores_h/metadata.json";
    PathJoin(CredentialsDir(d), "metadata.json")
  }

  /** `CA_ROOT_PATH`: the CA root sits next to the script, not in the gateway's folder. */
  function CaRootPath(d: Dirs): (p: string)
    ensures p == d.scriptDir + Separator(d.scriptDir) + "AmazonRootCA1.pem"
  {
    PathJoin(d.scriptDir, "AmazonRootCA1.pem")
  }

  /**
    Why the program stops before connecting. Only a missing metadata file is
    caught (`FileNotFoundError`, then `sys.exit(1)`) and a missing CA root is
    checked; the other cases are exceptions nobody catches.
   */
  datatype StartupError =
    | MetadataNotFound   // FileNotFoundError, caught
    | MetadataInvalid    // json.load raises JSONDecodeError
    | TopicMissing       // metadata["gatewayTopic"] raises KeyError, or TypeError when the document is not an object
    | TopicNotString     // the topic has no split method: AttributeError
    | TopicWithoutOwner  // PUBLISH_TOPIC.split("/")[1] raises IndexError
    | CaRootMissing      // os.path.exists(CA_ROOT_PATH) is false

  /** `PUBLISH_TOPIC` and `USER_ID`. */
  datatype Config = Config(publishTopic: string, userId: string)

  /** A split yields a second piece exactly when the separator occurs. */
  lemma {:induction false} SplitHasSecond(s: string, sep: char)
    ensures |Split(s, sep)| >= 2 <==> !Free(s, sep)
    decreases |s|
  {
    if Free(s, sep) {
      SplitFree(s, sep);
    } else if s[0] != sep {
      assert !Free(s[1..], sep) by {
        var k :| 0 <= k < |s| && s[k] == sep;
        assert s[1..][k - 1] == sep;
      }
      SplitHasSecond(s[1..], sep);
    }
  }

  /** `topic.split("/")[1]`: the owner segment, an `IndexError` when the topic has no `/`. */
  function OwnerSegment(topic: string): (r: Result<string, StartupError>)
    ensures r.Ok? <==> !Free(topic, '/')
    ensures r.Err? ==> r.error == TopicWithoutOwner
    ensures r.Ok? ==> Free(r.value, '/')
  {
    SplitHasSecond(topic, '/');
    var parts := Split(topic, '/');
    if |parts| < 2 then Err(TopicWithoutOwner) else (assert parts[1] in parts; Ok(parts[1]))
  }

  /** The owner is the segment between the first and the second `/` (or the end of the topic). */
  lemma OwnerOfTopic(first: string, owner: string, rest: string)
    requires Free(first, '/') && Free(owner, '/')
    requires rest == [] || rest[0] == '/'
    ensures OwnerSegment(first + "/" + owner + rest) == Ok(owner)
  {
    var topic := first + "/" + owner + rest;
    assert topic == first + ['/'] + (owner + rest);
    SplitAfterFree(first, '/', owner + rest);
    SplitHeadFree(owner, '/', rest);
    if rest == [] {
      assert Split(rest, '/')[0] == "";
    } else {
      assert rest == [] + ['/'] + rest[1..];
      SplitAfterFree([], '/', rest[1..]);
    }
    assert owner + "" == owner;
  }

  /** `gateways/ownerA/group` belongs to `ownerA`. */
  lemma OwnerExample()
    ensures OwnerSegment("gateways/ownerA/group") == Ok("ownerA")
  {
    assert "gateways/ownerA/group" == "gateways" + "/" + "ownerA" + "/group";
    OwnerOfTopic("gateways", "ownerA", "/group");
  }

  /**
    The module-level block that loads `metadata.json`: the publish topic is
    its `gatewayTopic` member and the user id is the topic's second segment.
   */
  function LoadConfig(files: map<string, string>, d: Dirs, codec: Codec): (r: Result<Config, StartupError>)
    ensures MetadataPath(d) !in files ==> r == Err(MetadataNotFound)
    ensures MetadataPath(d) in files && codec.deserialize(files[MetadataPath(d)]).None? ==> r == Err(MetadataInvalid)
    ensures MetadataPath(d) in files ==> r != Err(MetadataNotFound)
    ensures r.Ok? <==>
              && MetadataPath(d) in files
              && codec.deserialize(files[MetadataPath(d)]).Some?
              && GetString(codec.deserialize(files[MetadataPath(d)]).value, "gatewayTopic").Some?
              && !Free(GetString(codec.deserialize(files[MetadataPath(d)]).value, "gatewayTopic").value, '/')
    ensures MetadataPath(d) in files && codec.deserialize(files[MetadataPath(d)]).Some? ==>
              var doc := codec.deserialize(files[MetadataPath(d)]).value;
              && (Get(doc, "gatewayTopic").None? ==> r == Err(TopicMissing))
              && (Get(doc, "gatewayTopic").Some? && !Get(doc, "gatewayTopic").value.JStr? ==> r == Err(TopicNotString))
              && (GetString(doc, "gatewayTopic").Some? && Free(GetString(doc, "gatewayTopic").value, '/') ==>
                    r == Err(TopicWithoutOwner))
    ensures r.Ok? ==>
              && GetString(codec.deserialize(files[MetadataPath(d)]).value, "gatewayTopic") == Some(r.value.publishTopic)
              && OwnerSegment(r.value.publishTopic) == Ok(r.value.userId)
    ensures r.Err? ==> r.error != CaRootMissing
  {
    var path := MetadataPath(d);
    if path !in files then Err(MetadataNotFound)
    else
      match codec.deserialize(files[path])
      case None => Err(MetadataInvalid)
      case Some(metadata) =>
        match Get(metadata, "gatewayTopic")
        case None => Err(TopicMissing)
        case Some(JStr(topic)) =>
          (match OwnerSegment(topic)
           case Err(e) => Err(e)
           case Ok(user) => Ok(Config(topic, user)))
        case Some(_) => Err(TopicNotString)
  }

  // ---------------------------------------------------------------------
  //  Readings
  // ---------------------------------------------------------------------

  /**
    `round(u, 2)` in hundredths, for a draw `u` of `random.uniform(40.0, 80.0)`:
    the nearest hundredth (ties go up here; Python rounds the binary float).
   */
  function Hundredths(u: real): (h: int)
    requires 40.0 <= u <= 80.0
    ensures h as real - 0.5 <= u * 100.0 < h as real + 0.5
    ensures 4000 <= h <= 8000
  {
    (u * 100.0 + 0.5).Floor
  }

  /** A draw `random.uniform(40.0, 80.0)` may give. */
  predicate InRange(u: real)
  {
    40.0 <= u <= 80.0
  }

  /** `{"id": sensor_id, "humidity": round(u, 2)}`. */
  function ReadingJson(sensorId: string, u: real): Json
    requires InRange(u)
  {
    JObj(map["id" := JStr(sensorId), "humidity" := JReal(Hundredths(u) as real / 100.0)])
  }

  /** The document `generate_simple_humidity_data` serializes, for the given draws and clock reading. */
  function HumidityBatch(userId: string, sensorIds: seq<string>, draws: seq<real>, now: int): Json
    requires |draws| == |sensorIds|
    requires forall k :: 0 <= k < |draws| ==> InRange(draws[k])
  {
    JObj(map[
      "gatewayId" := JStr(ThingName),
      "userId" := JStr(userId),
      "timestamp" := JInt(now),
      "readings" := JArr(seq(|sensorIds|, k requires 0 <= k < |sensorIds| => ReadingJson(sensorIds[k], draws[k])))])
  }

  /**
    A batch names the gateway and the owner, carries the clock reading, and
    has one reading per sensor id, in the order of the ids, each with a
    humidity between 40.0 and 80.0.
   */
  lemma HumidityBatchShape(userId: string, sensorIds: seq<string>, draws: seq<real>, now: int)
    requires |draws| == |sensorIds|
    requires forall k :: 0 <= k < |draws| ==> InRange(draws[k])
    ensures var b := HumidityBatch(userId, sensorIds, draws, now);
            && GetString(b, "gatewayId") == Some(ThingName)
            && GetString(b, "userId") == Some(userId)
            && Get(b, "timestamp") == Some(JInt(now))
            && Get(b, "readings").Some? && Get(b, "readings").value.JArr?
            && var rs := Get(b, "readings").value.items;
               && |rs| == |sensorIds|
               && forall k :: 0 <= k < |rs| ==>
                    && GetString(rs[k], "id") == Some(sensorIds[k])
                    && Get(rs[k], "humidity").Some? && Get(rs[k], "humidity").value.JReal?
                    && 40.0 <= Get(rs[k], "humidity").value.r <= 80.0
  {
    var b := HumidityBatch(userId, sensorIds, draws, now);
    var rs := Get(b, "readings").value.items;
    assert |rs| == |sensorIds|;
    forall k | 0 <= k < |rs|
      ensures GetString(rs[k], "id") == Some(sensorIds[k])
      ensures Get(rs[k], "humidity").Some? && Get(rs[k], "humidity").value.JReal?
      ensures 40.0 <= Get(rs[k], "humidity").value.r <= 80.0
    {
      assert rs[k] == ReadingJson(sensorIds[k], draws[k]);
      var h := Hundredths(draws[k]);
      assert Get(rs[k], "humidity") == Some(JReal(h as real / 100.0));
    }
  }

  /** `generate_simple_humidity_data(sensor_ids)`: the readings are appended one sensor id at a time. */
  method GenerateSimpleHumidityData(sensorIds: seq<string>, draws: seq<real>, userId: string, now: int)
    returns (payload: Json)
    requires |draws| == |sensorIds|
    requires forall k :: 0 <= k < |draws| ==> InRange(draws[k])
    ensures payload == HumidityBatch(userId, sensorIds, draws, now)
  {
    var readings: seq<Json> := [];
    for k := 0 to |sensorIds|
      invariant |readings| == k
      invariant forall j :: 0 <= j < k ==> readings[j] == ReadingJson(sensorIds[j], draws[j])
    {
      readings := readings + [ReadingJson(sensorIds[k], draws[k])];
    }
    assert readings == seq(|sensorIds|, k requires 0 <= k < |sensorIds| => ReadingJson(sensorIds[k], draws[k]));
    payload := JObj(map[
      "gatewayId" := JStr(ThingName),
      "userId" := JStr(userId),
      "timestamp" := JInt(now),
      "readings" := JArr(readings)]);
  }

  // ---------------------------------------------------------------------
  //  The publish loop
  // ---------------------------------------------------------------------

  /** A call the program makes on the paho MQTT client. */
  datatype ClientCall =
    | NewClient(clientId: string)
    | TlsSet(caCerts: string, certFile: string, keyFile: string)
    | Connect(host: string, port: int, keepalive: int)
    | LoopStart
    | Publish(topic: string, payload: Json, qos: int)
    | LoopStop
    | Disconnect

  /** One pass of the publish loop: the clock reading and the random draws it used. */
  datatype Tick = Tick(now: int, draws: seq<real>)

  predicate ValidTick(t: Tick)
  {
    |t.draws| == |DefaultSensorIds| && forall k :: 0 <= k < |t.draws| ==> InRange(t.draws[k])
  }

  /** The calls before the connection attempt: create the client, install the TLS files, connect. */
  function SetupCalls(d: Dirs): seq<ClientCall>
  {
    [NewClient(ThingName),
     TlsSet(CaRootPath(d), PathJoin(CredentialsDir(d), "certificate.pem"), PathJoin(CredentialsDir(d), "private.key")),
     Connect(AwsIotEndpoint, BrokerPort, KeepAliveSeconds)]
  }

  /** The publish of one tick. */
  function TickPublish(cfg: Config, t: Tick): ClientCall
    requires ValidTick(t)
  {
    Publish(cfg.publishTopic, HumidityBatch(cfg.userId, DefaultSensorIds, t.draws, t.now), PublishQos)
  }

  /** The calls `run_gateway` makes: nothing after a connect that raises; otherwise the loop, then the teardown. */
  function GatewayCalls(d: Dirs, cfg: Config, connectRaises: bool, ticks: seq<Tick>): seq<ClientCall>
    requires forall k :: 0 <= k < |ticks| ==> ValidTick(ticks[k])
  {
    if connectRaises then SetupCalls(d)
    else SetupCalls(d) + [LoopStart]
         + seq(|ticks|, k requires 0 <= k < |ticks| => TickPublish(cfg, ticks[k]))
         + [LoopStop, Disconnect]
  }

  /** The publish calls of a trace, in order. */
  function Publishes(calls: seq<ClientCall>): (ps: seq<ClientCall>)
    ensures forall c :: c in ps ==> c in calls && c.Publish?
  {
    if calls == [] then []
    else if calls[0].Publish? then [calls[0]] + Publishes(calls[1..])
    else Publishes(calls[1..])
  }

  lemma {:induction false} PublishesAppend(a: seq<ClientCall>, b: seq<ClientCall>)
    ensures Publishes(a + b) == Publishes(a) + Publishes(b)
  {
    if a != [] {
      assert (a + b)[1..] == a[1..] + b;
      PublishesAppend(a[1..], b);
    } else {
      assert a + b == b;
    }
  }

  lemma {:induction false} NoPublishes(cs: seq<ClientCall>)
    requires forall k :: 0 <= k < |cs| ==> !cs[k].Publish?
    ensures Publishes(cs) == []
  {
    if cs != [] {
      NoPublishes(cs[1..]);
    }
  }

  lemma {:induction false} PublishesOfPublishes(ps: seq<ClientCall>)
    requires forall k :: 0 <= k < |ps| ==> ps[k].Publish?
    ensures Publishes(ps) == ps
  {
    if ps != [] {
      PublishesOfPublishes(ps[1..]);
    }
  }

  /**
    What `run_gateway` does on the client. When `connect` raises it publishes
    nothing and does not tear down. Otherwise it publishes exactly once per
    tick, every time to `PUBLISH_TOPIC` with QoS 1 and that tick's batch, and
    the teardown `loop_stop` then `disconnect` ends the trace.
   */
  lemma GatewayTrace(d: Dirs, cfg: Config, connectRaises: bool, ticks: seq<Tick>)
    requires forall k :: 0 <= k < |ticks| ==> ValidTick(ticks[k])
    ensures var calls := GatewayCalls(d, cfg, connectRaises, ticks);
            && calls[..3] == SetupCalls(d)
            && (connectRaises ==> Publishes(calls) == [] && calls == SetupCalls(d))
            && (!connectRaises ==>
                  && |Publishes(calls)| == |ticks|
                  && (forall k :: 0 <= k < |ticks| ==>
                        Publishes(calls)[k] == Publish(cfg.publishTopic,
                                                       HumidityBatch(cfg.userId, DefaultSensorIds, ticks[k].draws, ticks[k].now),
                                                       PublishQos))
                  && calls[|calls| - 2..] == [LoopStop, Disconnect])
  {
    var pubs := seq(|ticks|, k requires 0 <= k < |ticks| => TickPublish(cfg, ticks[k]));
    TraceParts(SetupCalls(d), pubs, connectRaises, GatewayCalls(d, cfg, connectRaises, ticks));
  }

  /** A trace made of a publish-free set-up, then either nothing or the publishes between `loop_start` and the teardown. */
  lemma TraceParts(setup: seq<ClientCall>, pubs: seq<ClientCall>, connectRaises: bool, calls: seq<ClientCall>)
    requires |setup| == 3 && forall k :: 0 <= k < |setup| ==> !setup[k].Publish?
    requires forall k :: 0 <= k < |pubs| ==> pubs[k].Publish?
    requires calls == if connectRaises then setup else setup + [LoopStart] + pubs + [LoopStop, Disconnect]
    ensures calls[..3] == setup
    ensures connectRaises ==> Publishes(calls) == []
    ensures !connectRaises ==> Publishes(calls) == pubs && calls[|calls| - 2..] == [LoopStop, Disconnect]
  {
    NoPublishes(setup);
    if connectRaises {
      assert calls[..3] == setup;
    } else {
      var head, tail := setup + [LoopStart], [LoopStop, Disconnect];
      PublishesBetween(head, pubs, tail);
      assert calls == head + pubs + tail;
      assert calls[..3] == head[..3] == setup;
      assert calls[|calls| - 2..] == tail;
    }
  }

  /** The publishes of a trace whose publishes all sit in its middle part are that part. */
  lemma PublishesBetween(head: seq<ClientCall>, pubs: seq<ClientCall>, tail: seq<ClientCall>)
    requires forall k :: 0 <= k < |head| ==> !head[k].Publish?
    requires forall k :: 0 <= k < |pubs| ==> pubs[k].Publish?
    requires forall k :: 0 <= k < |tail| ==> !tail[k].Publish?
    ensures Publishes(head + pubs + tail) == pubs
  {
    NoPublishes(head);
    NoPublishes(tail);
    PublishesAppend(head, pubs);
    PublishesAppend(head + pubs, tail);
    PublishesOfPublishes(pubs);
  }

  /**
    `run_gateway()`. The `while True` loop runs once per tick; the keyboard
    interrupt after the last tick leads to the `finally` block.
   */
  method RunGateway(d: Dirs, cfg: Config, connectRaises: bool, ticks: seq<Tick>) returns (calls: seq<ClientCall>)
    requires forall k :: 0 <= k < |ticks| ==> ValidTick(ticks[k])
    ensures calls == GatewayCalls(d, cfg, connectRaises, ticks)
  {
    calls := [NewClient(ThingName)];
    calls := calls + [TlsSet(CaRootPath(d), PathJoin(CredentialsDir(d), "certificate.pem"),
                             PathJoin(CredentialsDir(d), "private.key"))];
    calls := calls + [Connect(AwsIotEndpoint, BrokerPort, KeepAliveSeconds)];
    if connectRaises {
      return;
    }
    calls := calls + [LoopStart];
    ghost var before := calls;
    assert before == SetupCalls(d) + [LoopStart];
    ghost var pubs: seq<ClientCall> := [];
    var k := 0;
    while k < |ticks|
      invariant 0 <= k <= |ticks|
      invariant calls == before + pubs
      invariant |pubs| == k && forall j :: 0 <= j < k ==> pubs[j] == TickPublish(cfg, ticks[j])
    {
      var payload := GenerateSimpleHumidityData(DefaultSensorIds, ticks[k].draws, cfg.userId, ticks[k].now);
      calls := calls + [Publish(cfg.publishTopic, payload, PublishQos)];
      pubs := pubs + [Publish(cfg.publishTopic, payload, PublishQos)];
      k := k + 1;
    }
    assert pubs == seq(|ticks|, k requires 0 <= k < |ticks| => TickPublish(cfg, ticks[k]));
    calls := calls + [LoopStop];
    calls := calls + [Disconnect];
  }

  // ---------------------------------------------------------------------
  //  The program
  // ---------------------------------------------------------------------

  /** How the program ends: an exit status, or an exception nobody catches. */
  datatype Exit = ExitStatus(code: int) | Uncaught(error: StartupError)

  /**
    The whole script: the metadata is loaded when the module loads, then the
    CA root is checked, then `run_gateway` runs. Returning from `run_gateway`,
    after a failed connect or after the interrupt, ends the program normally.
   */
  method GatewayProgram(files: map<string, string>, d: Dirs, codec: Codec, connectRaises: bool, ticks: seq<Tick>)
    returns (exit: Exit, calls: seq<ClientCall>)
    requires forall k :: 0 <= k < |ticks| ==> ValidTick(ticks[k])
    ensures LoadConfig(files, d, codec) == Err(MetadataNotFound) ==> exit == ExitStatus(1) && calls == []
    ensures LoadConfig(files, d, codec).Err? && LoadConfig(files, d, codec) != Err(MetadataNotFound) ==>
              exit == Uncaught(LoadConfig(files, d, codec).error) && calls == []
    ensures LoadConfig(files, d, codec).Ok? && CaRootPath(d) !in files ==> exit == ExitStatus(1) && calls == []
    ensures LoadConfig(files, d, codec).Ok? && CaRootPath(d) in files ==>
              exit == ExitStatus(0) && calls == GatewayCalls(d, LoadConfig(files, d, codec).value, connectRaises, ticks)
  {
    calls := [];
    var loaded := LoadConfig(files, d, codec);
    if loaded.Err? {
      exit := if loaded.error == MetadataNotFound then ExitStatus(1) else Uncaught(loaded.error);
      return;
    }
    if CaRootPath(d) !in files {
      exit := ExitStatus(1);
      return;
    }
    calls := RunGateway(d, loaded.value, connectRaises, ticks);
    exit := ExitStatus(0);
  }
}
