/**
  The board's credential loader (sketches/sensor_humidity_wifi/load_info.cpp):
  the class `LoadInfo` reads the gateway metadata and the TLS material from
  the flash file system into its fields.

  The flash file system is a map from path to contents; whether it mounts is
  an input, and ArduinoJson's parsing and string conversion are a `Codec`.
 */
module DeviceInfo {
  import opened Wrappers
  import opened Json

  const MetadataFile: string := "/metadata.json"
  const CaCertFile: string := "/AmazonRootCA1.pem"
  const DeviceCertFile: string := "/certificate.pem"
  const PrivateKeyFile: string := "/private.key"

  /** `LoadInfo::readFile`: the whole file, or `""` when it cannot be opened. */
  function ReadFile(flash: map<string, string>, path: string): (content: string)
    ensures path in flash ==> content == flash[path]
    ensures content == "" <==> path !in flash || flash[path] == ""
  {
    if path in flash then flash[path] else ""
  }

  /**
    The document `loadMetadata` accepts: `None` when `/metadata.json` is
    missing or empty, or when it does not deserialize.
   */
  function MetadataDocument(flash: map<string, string>, codec: Codec): (doc: Option<Json>)
    ensures doc.Some? <==> ReadFile(flash, MetadataFile) != "" && codec.deserialize(ReadFile(flash, MetadataFile)).Some?
    ensures doc.Some? ==> doc == codec.deserialize(flash[MetadataFile])
  {
    var text := ReadFile(flash, MetadataFile);
    if |text| == 0 then None else codec.deserialize(text)
  }

  /** `loadCertificates` succeeds: the CA root, the device certificate and the private key are all non-empty. */
  predicate CertificatesPresent(flash: map<string, string>)
  {
    ReadFile(flash, CaCertFile) != "" && ReadFile(flash, DeviceCertFile) != "" && ReadFile(flash, PrivateKeyFile) != ""
  }

  /** The nine fields of a `LoadInfo`, as a value. */
  datatype Info = Info(
    thingName: string,
    awsIotEndpoint: string,
    gatewayTopic: string,
    userId: string,
    ssid: string,
    wifiPassword: string,
    caCert: string,
    deviceCert: string,
    privateKey: string)

  /** The six metadata fields after a successful `loadMetadata`: each taken from its key of the document. */
  function WithMetadata(s: Info, doc: Json, codec: Codec): (t: Info)
    ensures && t.thingName == AsString(codec, doc, "thingName")
            && t.awsIotEndpoint == AsString(codec, doc, "awsIotEndpoint")
            && t.gatewayTopic == AsString(codec, doc, "gatewayTopic")
            && t.userId == AsString(codec, doc, "userId")
            && t.ssid == AsString(codec, doc, "SSID")
            && t.wifiPassword == AsString(codec, doc, "WiFiPassword")
    ensures t.caCert == s.caCert && t.deviceCert == s.deviceCert && t.privateKey == s.privateKey
  {
    s.(thingName := AsString(codec, doc, "thingName"),
       awsIotEndpoint := AsString(codec, doc, "awsIotEndpoint"),
       gatewayTopic := AsString(codec, doc, "gatewayTopic"),
       userId := AsString(codec, doc, "userId"),
       ssid := AsString(codec, doc, "SSID"),
       wifiPassword := AsString(codec, doc, "WiFiPassword"))
  }

  /** The three TLS fields after `loadCertificates`, which assigns them whatever it read. */
  function WithCertificates(s: Info, flash: map<string, string>): (t: Info)
    ensures t.caCert == ReadFile(flash, CaCertFile) && t.deviceCert == ReadFile(flash, DeviceCertFile)
            && t.privateKey == ReadFile(flash, PrivateKeyFile)
    ensures CertificatesPresent(flash) <==> t.caCert != "" && t.deviceCert != "" && t.privateKey != ""
    ensures && t.thingName == s.thingName && t.awsIotEndpoint == s.awsIotEndpoint
            && t.gatewayTopic == s.gatewayTopic && t.userId == s.userId
            && t.ssid == s.ssid && t.wifiPassword == s.wifiPassword
  {
    s.(caCert := ReadFile(flash, CaCertFile),
       deviceCert := ReadFile(flash, DeviceCertFile),
       privateKey := ReadFile(flash, PrivateKeyFile))
  }

  /**
    `begin` on state `s`: nothing happens when the mount fails; otherwise both
    loaders run, one after the other, and the result is their conjunction.
   */
  function BeginResult(s: Info, flash: map<string, string>, mounted: bool, codec: Codec): (Info, bool)
  {
    if !mounted then (s, false)
    else
      var doc := MetadataDocument(flash, codec);
      var afterMetadata := if doc.Some? then WithMetadata(s, doc.value, codec) else s;
      (WithCertificates(afterMetadata, flash), doc.Some? && CertificatesPresent(flash))
  }

  /**
    What `begin` guarantees about the loaded state: with a mounted file system
    the TLS fields always hold what was read (the certificate loader runs even
    when the metadata fails), the metadata fields hold the document's values
    when it loaded and keep their earlier values otherwise, and `begin`
    succeeds exactly when both loaders did.
   */
  lemma BeginLoads(s: Info, flash: map<string, string>, mounted: bool, codec: Codec)
    ensures var (t, ok) := BeginResult(s, flash, mounted, codec);
            && (!mounted ==> t == s && !ok)
            && (mounted ==>
                  && t.caCert == ReadFile(flash, CaCertFile)
                  && t.deviceCert == ReadFile(flash, DeviceCertFile)
                  && t.privateKey == ReadFile(flash, PrivateKeyFile)
                  && (ok <==> MetadataDocument(flash, codec).Some? && CertificatesPresent(flash)))
            && (mounted && MetadataDocument(flash, codec).Some? ==>
                  var doc := MetadataDocument(flash, codec).value;
                  && t.thingName == AsString(codec, doc, "thingName")
                  && t.awsIotEndpoint == AsString(codec, doc, "awsIotEndpoint")
                  && t.gatewayTopic == AsString(codec, doc, "gatewayTopic")
                  && t.userId == AsString(codec, doc, "userId")
                  && t.ssid == AsString(codec, doc, "SSID")
                  && t.wifiPassword == AsString(codec, doc, "WiFiPassword"))
            && (mounted && MetadataDocument(flash, codec).None? ==>
                  && t.thingName == s.thingName && t.awsIotEndpoint == s.awsIotEndpoint
                  && t.gatewayTopic == s.gatewayTopic && t.userId == s.userId
                  && t.ssid == s.ssid && t.wifiPassword == s.wifiPassword)
  {
  }

  /** Loading twice from the same flash gives the same state as loading once. */
  lemma BeginIdempotent(s: Info, flash: map<string, string>, mounted: bool, codec: Codec)
    ensures var once := BeginResult(s, flash, mounted, codec);
            BeginResult(once.0, flash, mounted, codec) == once
  {
  }

  /** After a successful `begin` the state depends on the flash alone, not on what was loaded before. */
  lemma BeginForgetsEarlierState(s: Info, s': Info, flash: map<string, string>, codec: Codec)
    requires BeginResult(s, flash, true, codec).1
    ensures BeginResult(s, flash, true, codec) == BeginResult(s', flash, true, codec)
  {
  }

  class LoadInfo {
    var thingName: string
    var awsIotEndpoint: string
    var gatewayTopic: string
    var userId: string
    var ssid: string
    var wifiPassword: string

    var caCert: string
    var deviceCert: string
    var privateKey: string

    /** The fields as a value. */
    function Snapshot(): Info
      reads this
    {
      Info(thingName, awsIotEndpoint, gatewayTopic, userId, ssid, wifiPassword, caCert, deviceCert, privateKey)
    }

    /** `LoadInfo() {}`: every `String` field starts empty. */
    constructor ()
      ensures Snapshot() == Info("", "", "", "", "", "", "", "", "")
    {
      thingName, awsIotEndpoint, gatewayTopic, userId, ssid, wifiPassword := "", "", "", "", "", "";
      caCert, deviceCert, privateKey := "", "", "";
    }

    /**
      `loadMetadata`: false for a missing or empty file or a document that
      does not deserialize, and then no field changes; otherwise the six
      metadata fields are assigned from their keys. The TLS fields are never
      touched.
     */
    method LoadMetadata(flash: map<string, string>, codec: Codec) returns (ok: bool)
      modifies this`thingName, this`awsIotEndpoint, this`gatewayTopic, this`userId, this`ssid, this`wifiPassword
      ensures ok <==> MetadataDocument(flash, codec).Some?
      ensures ok ==> Snapshot() == WithMetadata(old(Snapshot()), MetadataDocument(flash, codec).value, codec)
      ensures !ok ==> Snapshot() == old(Snapshot())
    {
      var metadata := ReadFile(flash, MetadataFile);
      if |metadata| == 0 {
        return false;
      }
      var parsed := codec.deserialize(metadata);
      if parsed.None? {
        return false;
      }
      var doc := parsed.value;
      thingName := AsString(codec, doc, "thingName");
      awsIotEndpoint := AsString(codec, doc, "awsIotEndpoint");
      gatewayTopic := AsString(codec, doc, "gatewayTopic");
      userId := AsString(codec, doc, "userId");
      ssid := AsString(codec, doc, "SSID");
      wifiPassword := AsString(codec, doc, "WiFiPassword");
      return true;
    }

    /**
      `loadCertificates`: the three TLS fields are assigned whatever was read,
      empty strings included, and the result says whether all three are
      non-empty. The metadata fields are never touched.
     */
    method LoadCertificates(flash: map<string, string>) returns (ok: bool)
      modifies this`caCert, this`deviceCert, this`privateKey
      ensures Snapshot() == WithCertificates(old(Snapshot()), flash)
      ensures ok <==> CertificatesPresent(flash)
    {
      caCert := ReadFile(flash, CaCertFile);
      deviceCert := ReadFile(flash, DeviceCertFile);
      privateKey := ReadFile(flash, PrivateKeyFile);
      if |caCert| == 0 || |deviceCert| == 0 || |privateKey| == 0 {
        return false;
      }
      return true;
    }

    /** `begin`: mount, then both loaders (no short-circuit), then the conjunction. */
    method Begin(flash: map<string, string>, mounted: bool, codec: Codec) returns (ok: bool)
      modifies this
      ensures (Snapshot(), ok) == BeginResult(old(Snapshot()), flash, mounted, codec)
    {
      if !mounted {
        return false;
      }
      var metaOk := LoadMetadata(flash, codec);
      var certOk := LoadCertificates(flash);
      ok := metaOk && certOk;
    }
  }
}
