# aws_iot_akame_tools in Dafny

A model of the logic at the centre of the gateway tools. It has four parts:

- **Provisioning** (`create_devices.py`, module `Provisioning` in `create_devices.dfy`).
  - It names devices `prefix-i` over a range of integers.
  - It asks the device factory function to create each device.
  - It writes each bundle (certificate, private key, public key and the whole response as metadata) into `base_dir/device_name`.
  - The file system is a `FileSystem` object over a map from path to contents.
  - The batch is a left fold `Batch` over that map. `RunBatch` is the loop proved against it.
- **Humidity gateway** (`simple_humedad_client.py`, module `HumidityGateway`).
  - It loads the gateway topic and takes the owner id from its second `/` segment.
  - It builds batches of simulated readings.
  - It drives the MQTT client: TLS set-up, connect, one QoS 1 publish per tick, then `loop_stop` and `disconnect`.
  - The client is modelled by the sequence of calls made on it.
- **Credential loader** (`sketches/sensor_humidity_wifi/load_info.cpp`, module `DeviceInfo`).
  - The class `LoadInfo` has the nine `String` fields of the source.
  - Its methods update those fields from a flash file system given as a map.
- **Sketch MQTT manager** (`sketches/sensor_humidity_wifi/mqtt_client_manager.cpp`, module `MqttManager`).
  - The class `MqttClientManager` holds the `LoadInfo` reference, the server, the installed TLS material, the `connected` flag and a trace of transport calls.
  - A session the broker or the network drops is the event `SessionLost`. The source's guards read the live socket, so they see the drop without a `loop`.

Shared modules:

- `Wrappers` (`Option`, `Result`).
- `Json`: JSON documents as a datatype. The text codec (`json.dumps`/`json.load`, ArduinoJson) is a `Codec` value of functions.
- `Text`: `str.split`, and decimal `str(int)` with its inverse.
- `Posix`: `os.path.join` and the file map.

Things outside the program are inputs:

- the Lambda call: `invoke: Json -> Option<Json>`, where `None` means the call raised;
- the dialog answers;
- the broker's answers;
- the clock;
- the random draws;
- whether LittleFS mounts.

## Model

| member | source | states |
|---|---|---|
| Json.AsString | sketches/sensor_humidity_wifi/load_info.cpp:50-55 | `doc[key].as<String>()`: a string member is returned as is; a missing key converts null; other values go through the codec's conversion |
| Text.Split | simple_humedad_client.py:23 | `str.split(sep)` yields at least one part, and no part contains the separator |
| Text.JoinSplit | simple_humedad_client.py:23 | joining the parts of `split` with the separator gives back the original string |
| Text.IntToString | create_devices.py:87 | `str(i)` is non-empty and made of digits and a minus sign |
| Text.IntRoundTrip | create_devices.py:87 | parsing `str(i)` back gives `i` |
| Text.IntToStringInjective | create_devices.py:86-87 | distinct integers have distinct decimal forms |
| Text.IntToStringSlashFree | create_devices.py:87 | a decimal form contains no `/`, so a device name adds no directory level |
| Posix.PathJoin | create_devices.py:23 | `os.path.join(a, b)`: an absolute `b` replaces `a`; otherwise one `/` is inserted unless `a` is empty or already ends in `/` |
| Posix.FileSystem.OpenForWrite | create_devices.py:26 | `open(p, "w")` creates or truncates `p` to the empty file and changes no other path |
| Posix.FileSystem.Write | create_devices.py:27 | `f.write(t)` appends `t` to the open file and changes no other path |
| Provisioning.CreateDeviceRequest | create_devices.py:11-12 | the request has exactly the keys `thingName` and `userId`, carrying the given name and user |
| Provisioning.DeviceName | create_devices.py:87 | `f"{prefix}-{i}"`: the name is the prefix, a hyphen and a decimal suffix from which `i` parses back |
| Provisioning.BatchNames | create_devices.py:84-87 | the batch names are `prefix-i` for `i` from `start` upward, `max(count, 0)` of them, in ascending order |
| Provisioning.DeviceNamesDistinct | create_devices.py:86-87 | two different indices never give the same device name |
| Provisioning.BatchNamesDistinct | create_devices.py:86-87 | the names of one batch are pairwise distinct |
| Provisioning.FileText | create_devices.py:26-36 | the metadata file is the serialized response; a key file exists only when the member is present and is a string |
| Provisioning.WriteBundleFrame | create_devices.py:24-36 | writing a bundle changes no path outside the four bundle paths |
| Provisioning.SaveOutcome | create_devices.py:22-36 | saving succeeds iff all three key members are strings. On success the four files hold the three members and the serialized response. A missing member stops the save after the earlier files were written, and leaves the failing file empty |
| Provisioning.SavedFiles | create_devices.py:26-36 | after a successful save every layout file holds its own text |
| Provisioning.WriteMember | create_devices.py:26-27 | one `with open(...) as f: f.write(data[key])`: the file ends up holding the member, or empty when the member is missing |
| Provisioning.WriteMetadata | create_devices.py:35-36 | the `json.dump` block: the metadata file ends up holding exactly the serialized answer, whatever it held before |
| Provisioning.SaveDeviceFiles | create_devices.py:22-36 | the four sequential writes into `base_dir/device_name` produce exactly the bundle fold's file map and success flag |
| Provisioning.AbortIsFinal | create_devices.py:86-95 | once an exception has escaped an iteration, no later iteration changes anything |
| Provisioning.AbortPersists | create_devices.py:86-95 | a batch that has ended stays ended |
| Provisioning.ProvisionOneRequests | create_devices.py:90 | each iteration that runs sends exactly one request, for its own device name |
| Provisioning.BatchRequests | create_devices.py:84-90 | the requests sent are those of `start`, `start+1`, … in order; all `k` are sent unless the batch aborted |
| Provisioning.BatchRequestNames | create_devices.py:84-90 | the loop sends the creation requests for the names `BatchNames` lists, in order, one per name unless an exception ended the run early |
| Provisioning.ErrorStatusContinues | create_devices.py:92-95 | a response whose status is not `"ok"` writes no file and does not stop the batch |
| Provisioning.ProvisionOneSaves | create_devices.py:92-93 | an iteration that completes has saved the bundle iff the status is `"ok"`, and otherwise left the files unchanged |
| Provisioning.ProvisionOneFrame | create_devices.py:92-93 | an iteration touches only its own device's four paths |
| Provisioning.ProvisionDevice | create_devices.py:87-95 | one pass of the loop body on a running batch: the request it sends, the file map it leaves and whether an exception escaped are exactly one step `ProvisionOne` of the fold |
| Provisioning.DeviceDirShape | create_devices.py:23 | every device directory is the common prefix followed by the decimal index |
| Provisioning.BundlePathsDistinct | create_devices.py:23-35 | two bundle paths of a batch coincide only for the same device and the same file |
| Provisioning.BatchFiles | create_devices.py:86-95 | after a batch that did not abort, each provisioned device's files hold its bundle; all other devices' paths keep their earlier contents |
| Provisioning.BatchUntouched | create_devices.py:86-95 | paths of devices the batch has not reached yet are unchanged |
| Provisioning.RunBatch | create_devices.py:84-95 | the loop's file map, request list and abort flag are exactly the fold `Batch` over `Iterations(count)` indices |
| Provisioning.UserOrDefault | create_devices.py:71-72 | an empty or cancelled user id becomes `"juan"`, a given one is kept, so the user id sent is never empty |
| Provisioning.CreateDevicesMain | create_devices.py:41-95 | a missing prefix, start, count or folder ends the program with no request and no file change; otherwise the batch runs as `Batch` |
| HumidityGateway.SplitHasSecond | simple_humedad_client.py:23 | `split("/")` has an index-1 element iff the topic contains `/` |
| HumidityGateway.OwnerSegment | simple_humedad_client.py:23 | the owner id exists iff the topic contains `/`; otherwise the load fails with the index error; the owner contains no `/` |
| HumidityGateway.OwnerOfTopic | simple_humedad_client.py:22-23 | for `first/owner…` the owner id is exactly the second segment |
| HumidityGateway.OwnerExample | simple_humedad_client.py:22-23 | `"gateways/ownerA/group"` gives `"ownerA"` |
| HumidityGateway.CredentialsDir | simple_humedad_client.py:11-12 | `CREDENTIALS_DIR` is `gateways/sensores_h` below the working directory, with one `/` inserted unless the working directory already ends in one |
| HumidityGateway.MetadataPath | simple_humedad_client.py:13 | `METADATA_PATH` is `gateways/sensores_h/metadata.json` below the working directory |
| HumidityGateway.CaRootPath | simple_humedad_client.py:16 | `CA_ROOT_PATH` is `AmazonRootCA1.pem` directly in the script's directory (`BASE_DIR`), not in the credentials folder |
| HumidityGateway.LoadConfig | simple_humedad_client.py:19-31 | the load succeeds iff the metadata file exists, parses, and has a string `gatewayTopic` containing `/`. A missing file is the one caught error. A file that does not parse, a missing or non-string topic, and a topic without `/` (an `IndexError`) are uncaught errors, each its own case. On success the topic is the document's `gatewayTopic` and the user id is its owner segment. The CA check is not part of this load |
| HumidityGateway.Hundredths | simple_humedad_client.py:39 | the rounded humidity is the nearest hundredth of the draw and lies in [4000, 8000] hundredths |
| HumidityGateway.HumidityBatchShape | simple_humedad_client.py:34-48 | the payload's header is `gatewayId` = the thing name, the parsed `userId` and the integer timestamp. It has one reading per sensor id, in order, each with that `id` and a humidity in [40, 80] |
| HumidityGateway.GenerateSimpleHumidityData | simple_humedad_client.py:34-49 | the loop's payload is exactly `HumidityBatch` of its inputs |
| HumidityGateway.GatewayTrace | simple_humedad_client.py:63-102 | every run starts with client creation, TLS set-up and connect. A connect that raises ends the run with no publish. Otherwise there is one QoS 1 publish per tick of that tick's batch, in order, and the run ends with `loop_stop` then `disconnect` |
| HumidityGateway.RunGateway | simple_humedad_client.py:63-102 | the loop's call trace is exactly `GatewayCalls` |
| HumidityGateway.GatewayProgram | simple_humedad_client.py:104-111 | a missing metadata file or a missing CA root exits with status 1 before any client call. Other load errors escape uncaught with no client call. Otherwise the gateway runs |
| DeviceInfo.ReadFile | sketches/sensor_humidity_wifi/load_info.cpp:6-16 | the whole file when it exists, otherwise `""`; the result is empty iff the file is missing or empty |
| DeviceInfo.MetadataDocument | sketches/sensor_humidity_wifi/load_info.cpp:36-48 | the metadata is accepted iff `/metadata.json` is non-empty and deserializes |
| DeviceInfo.WithMetadata | sketches/sensor_humidity_wifi/load_info.cpp:50-55 | the six metadata fields take `as<String>()` of the keys `thingName`, `awsIotEndpoint`, `gatewayTopic`, `userId`, `SSID` and `WiFiPassword`; the TLS fields keep their values |
| DeviceInfo.WithCertificates | sketches/sensor_humidity_wifi/load_info.cpp:65-71 | the three TLS fields take what was read; they are all non-empty iff the certificates are present; the metadata fields keep their values |
| DeviceInfo.BeginLoads | sketches/sensor_humidity_wifi/load_info.cpp:21-31 | without a mount nothing changes and the result is false. With a mount the TLS fields always hold what was read; the metadata fields are assigned from their keys (`SSID` to `ssid`, `WiFiPassword` to `wifiPassword`) or are unchanged when the metadata fails; the result is the conjunction of both loaders |
| DeviceInfo.BeginIdempotent | sketches/sensor_humidity_wifi/load_info.cpp:21-31 | loading twice from the same flash gives the same fields and result as loading once |
| DeviceInfo.BeginForgetsEarlierState | sketches/sensor_humidity_wifi/load_info.cpp:21-31 | after a successful load the fields depend on the flash alone |
| DeviceInfo.LoadInfo.constructor | sketches/sensor_humidity_wifi/load_info.h:20 | every field starts as the empty string |
| DeviceInfo.LoadInfo.LoadMetadata | sketches/sensor_humidity_wifi/load_info.cpp:36-59 | true iff the metadata is accepted. Then the six metadata fields take their keys' values. Otherwise no field changes. The TLS fields are outside its frame |
| DeviceInfo.LoadInfo.LoadCertificates | sketches/sensor_humidity_wifi/load_info.cpp:64-76 | the three TLS fields always take what was read; true iff all three are non-empty; the metadata fields are outside its frame |
| DeviceInfo.LoadInfo.Begin | sketches/sensor_humidity_wifi/load_info.cpp:21-31 | the new fields and the result are exactly `BeginResult` of the old fields |
| MqttManager.ReadingsRoundTrip | sketches/sensor_humidity_wifi/mqtt_client_manager.cpp:56-63 | the `readings` array decodes back to the input readings, in order |
| MqttManager.ReadingObject | sketches/sensor_humidity_wifi/mqtt_client_manager.cpp:59-62 | the object built for a reading decodes back to that reading |
| MqttManager.ReadingsPayload | sketches/sensor_humidity_wifi/mqtt_client_manager.cpp:51-63 | the document carries the thing name as `meshId`, the clock as `timestamp`, and a `readings` array with one element per reading, each decoding back to its reading, in order |
| MqttManager.PayloadRoundTrip | sketches/sensor_humidity_wifi/mqtt_client_manager.cpp:51-63 | a subscriber decoding the document gets the thing name as `meshId`, the timestamp and every reading in order |
| MqttManager.PayloadMembers | sketches/sensor_humidity_wifi/mqtt_client_manager.cpp:51-56 | the document has exactly `meshId`, `timestamp` and `readings`; there is no `userId` |
| MqttManager.MqttClientManager.constructor | sketches/sensor_humidity_wifi/mqtt_client_manager.cpp:3-4 | no credential store and no session |
| MqttManager.MqttClientManager.Begin | sketches/sensor_humidity_wifi/mqtt_client_manager.cpp:6-9 | records the store and targets its `awsIotEndpoint` on port 8883 |
| MqttManager.MqttClientManager.Loop | sketches/sensor_humidity_wifi/mqtt_client_manager.cpp:11-14 | services the session only while connected; otherwise nothing changes |
| MqttManager.MqttClientManager.Connect | sketches/sensor_humidity_wifi/mqtt_client_manager.cpp:16-34 | returns false without a store and true at once when already connected, in both cases changing nothing. Otherwise it installs the store's CA, certificate and key, connects with the thing name as client id, and returns the broker's answer |
| MqttManager.MqttClientManager.IsConnected | sketches/sensor_humidity_wifi/mqtt_client_manager.cpp:36-38 | reports the session state |
| MqttManager.MqttClientManager.SessionLost | sketches/sensor_humidity_wifi/mqtt_client_manager.cpp:36-38 | a session the broker or the network drops: `connected()` reports the live socket, so every later guard (`loop`, `connect`, `isConnected`, `disconnect`, `publishReadings`) sees no session, and nothing is sent |
| MqttManager.MqttClientManager.Disconnect | sketches/sensor_humidity_wifi/mqtt_client_manager.cpp:40-43 | ends the session if there is one; the trace grows only when connected |
| MqttManager.MqttClientManager.PublishReadings | sketches/sensor_humidity_wifi/mqtt_client_manager.cpp:45-77 | without a session it returns false and publishes nothing. Otherwise it makes one QoS 0 publish on the gateway topic of the readings document and returns the client's result |
| MqttManager.DroppedSessionPublish | sketches/sensor_humidity_wifi/mqtt_client_manager.cpp:45-49 | after a successful connect and a dropped session, `publishReadings` returns false and the trace holds only the connect, with no `loop` in between |

## Left out

- `sketches/sensor_humidity_wifi/wifi_bootstrap.cpp`: radio and NTP control driven by timeouts. It is device I/O with no logic to prove.
- The boto3 Lambda transport and the tkinter dialogs. Only their results enter the model: the response of `invoke`, or `None` when the call raises, and the `Answers`. The closing message box is not modelled.
- `os.makedirs`: directories are not represented. Paths are plain strings in one map, so a failure to create the directory and a file or directory named like a bundle file are not modelled.
- Library internals are outside the model:
  - paho's background network thread, TLS handshake and keep-alive;
  - errors raised by `tls_set` for unreadable certificate files;
  - PubSubClient and WiFiClientSecure;
  - the LittleFS mount;
  - `mqttClient.state()` codes.
- Provisioning.CreateDevicesMain: errors are not separated per device. An exception from `create_device`, from `result.get` on a non-object response, or from `save_device_files` escapes `main` and ends the whole batch. The model follows this (`aborted`).
- The model has no reconnect loop, no backoff, no retry budget, no atomic staging of the bundle and no check of an empty owner id. The code has none of these, so none is modelled as existing behaviour.
- JSON text is an oracle. The model covers neither `json.dumps` formatting (including `indent=4`) nor ArduinoJson's serializer. It also leaves out ArduinoJson's capacity limits. For `StaticJsonDocument<1024>` in `loadMetadata`, a document that overflows fails to deserialize, which the codec's `None` covers. `DynamicJsonDocument(8192)` in `publishReadings` is built, not parsed, and is covered under `PublishReadings` below.
- HumidityGateway.Hundredths: rounds half up on the exact real value. `round(x, 2)` rounds the binary float half to even. The two differ only on exact ties, which a float draw almost never hits. Humidity values are `real`, not IEEE floats.
- The random draws and the clock are inputs (`Tick`). `time.sleep(3)` and the keyboard interrupt are the end of the `ticks` sequence: an interrupt during a publish or a sleep is not distinguished from one between ticks. Publish acknowledgements (`on_publish`) and `on_connect` logging are not modelled.
- Console output (`print`, `Serial`) is not modelled.
- Windows paths are not modelled. `os.path.join` is modelled with POSIX semantics only.
- MqttManager.MqttClientManager.Begin: `setServer` keeps a pointer into `info->awsIotEndpoint`. The model copies the string, so a later reload of the `LoadInfo` is not seen by the server address. In the same way, `Connect` copies the TLS material that `setCACert`/`setCertificate`/`setPrivateKey` keep by pointer.
- MqttManager.MqttClientManager.PublishReadings: the serialized text, its length and PubSubClient's buffer limit are folded into the `delivered` input. The published payload is recorded as the JSON document. The 8192-byte capacity of `DynamicJsonDocument` is not modelled. On overflow ArduinoJson silently drops readings or members of a reading object. For a batch that large the real payload lacks readings that `PublishReadings`, `ReadingsPayload` and `PayloadRoundTrip` state are there.
- MqttManager.MqttClientManager: the guards read `mqttClient.connected()`, the live socket state. The model represents a dropped session as the event `SessionLost` between two calls, and as the `stillConnected` input of `Loop`. A drop in the middle of `connect` or `publishReadings`, after the guard has passed, is folded into the `accepted` and `delivered` inputs.
- MqttManager.Reading: `int` fields are unbounded integers and `float` humidity is a `real`. They are copied into the document unchanged, so the widths do not matter.
- HumidityGateway.LoadConfig: `json.load` and the `gatewayTopic` key are modelled. The distinction between a `KeyError` and a `TypeError` for a non-object document is folded into `TopicMissing`. Both escape uncaught.
