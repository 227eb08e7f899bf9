/**
  The provisioning tool (create_devices.py): for a range of device names it
  asks the remote provisioning function for a credential bundle and, for
  every bundle whose status is "ok", writes the bundle into a directory of its
  own under the chosen output folder.

  The dialogs are replaced by their answers (`Answers`), the remote function
  by an oracle `invoke` (the decoded response, or `None` when the invocation
  raises), and `json.dump` by a `Codec`.
 */
module Provisioning {
  import opened Wrappers
  import opened Json
  import opened Text
  import opened Posix

  // ---------------------------------------------------------------------
  //  Request construction and device names
  // ---------------------------------------------------------------------

  /** The payload `create_device` sends: exactly the thing name and the user id. */
  function CreateDeviceRequest(thingName: string, userId: string): (req: Json)
    ensures req.JObj? && req.fields.Keys == {"thingName", "userId"}
    ensures GetString(req, "thingName") == Some(thingName)
    ensures GetString(req, "userId") == Some(userId)
  {
    JObj(map["thingName" := JStr(thingName), "userId" := JStr(userId)])
  }

  /** The name of the i-th device of a batch, `f"{prefix}-{i}"`. */
  function DeviceName(prefix: string, i: int): (name: string)
    ensures |name| > |prefix| + 1 && name[..|prefix| + 1] == prefix + "-"
    ensures var suffix := name[|prefix| + 1..];
            && (forall k :: 0 <= k < |suffix| ==> IsDigit(suffix[k]) || suffix[k] == '-')
            && ParseInt(suffix) == i
  {
    var name := prefix + "-" + IntToString(i);
    IntRoundTrip(i);
    assert name[|prefix| + 1..] == IntToString(i);
    name
  }

  /** Two devices of one batch never share a name: distinct numbers give distinct decimal suffixes. */
  lemma DeviceNamesDistinct(prefix: string, i: int, j: int)
    requires i != j
    ensures DeviceName(prefix, i) != DeviceName(prefix, j)
  {
    if DeviceName(prefix, i) == DeviceName(prefix, j) {
      var n := |prefix| + 1;
      assert IntToString(i) == DeviceName(prefix, i)[n..];
      assert IntToString(j) == DeviceName(prefix, j)[n..];
      IntToStringInjective(i, j);
    }
  }

  /** The device names a batch of `count` devices starting at `start` goes through, in order. */
  function BatchNames(prefix: string, start: int, count: int): (names: seq<string>)
    ensures |names| == Iterations(count)
    ensures forall k :: 0 <= k < |names| ==> names[k] == DeviceName(prefix, start + k)
  {
    seq(Iterations(count), k => DeviceName(prefix, start + k))
  }

  /** How many times `for i in range(start, start + count - 1 + 1)` runs: `count`, or none when `count` is not positive. */
  function Iterations(count: int): nat
  {
    if count > 0 then count else 0
  }

  /** The names of a batch are pairwise distinct. */
  lemma BatchNamesDistinct(prefix: string, start: int, count: int)
    ensures var names := BatchNames(prefix, start, count);
            forall a, b :: 0 <= a < b < |names| ==> names[a] != names[b]
  {
    var names := BatchNames(prefix, start, count);
    forall a, b | 0 <= a < b < |names|
      ensures names[a] != names[b]
    {
      BatchNamePair(prefix, start, count, a, b);
    }
  }

  lemma BatchNamePair(prefix: string, start: int, count: int, a: int, b: int)
    requires 0 <= a < b < Iterations(count)
    ensures BatchNames(prefix, start, count)[a] != BatchNames(prefix, start, count)[b]
  {
    DeviceNamesDistinct(prefix, start + a, start + b);
  }

  // ---------------------------------------------------------------------
  //  Bundle layout
  // ---------------------------------------------------------------------

  /** Where the text of one bundle file comes from: a member of the response, or the whole response as JSON. */
  datatype FileSource = Member(key: string) | WholeResponse

  /** The files `save_device_files` writes, in the order it writes them. */
  const BundleLayout: seq<(string, FileSource)> := [
    ("certificate.pem", Member("certificatePem")),
    ("private.key", Member("privateKey")),
    ("public.key", Member("publicKey")),
    ("metadata.json", WholeResponse)
  ]

  /**
    The text written for one file, `None` when Python raises instead:
    `data[key]` raises `KeyError` when the member is missing, and `f.write`
    raises `TypeError` when it is not a string. `json.dump` of a decoded
    response always succeeds.
   */
  function FileText(src: FileSource, data: Json, codec: Codec): (text: Option<string>)
    ensures src.WholeResponse? ==> text == Some(codec.serialize(data))
    ensures src.Member? ==> (text.Some? <==> Get(data, src.key).Some? && Get(data, src.key).value.JStr?)
  {
    match src
    case Member(key) => GetString(data, key)
    case WholeResponse => Some(codec.serialize(data))
  }

  /**
    The files after writing `plan` under `dir` one file after the other, and
    whether every write succeeded. Each file is opened (created or truncated)
    before its text is computed, so a failing file is left EMPTY and the files
    after it are not touched; the files before it stay written.
   */
  function WriteBundle(files: map<string, string>, dir: string, plan: seq<(string, FileSource)>,
                       data: Json, codec: Codec): (map<string, string>, bool)
    decreases |plan|
  {
    if |plan| == 0 then (files, true)
    else
      var path := PathJoin(dir, plan[0].0);
      match FileText(plan[0].1, data, codec)
      case None => (files[path := ""], false)
      case Some(text) => WriteBundle(files[path := text], dir, plan[1..], data, codec)
  }

  /** Writing a plan changes no file outside the paths the plan names. */
  lemma {:induction false} WriteBundleFrame(files: map<string, string>, dir: string,
                                            plan: seq<(string, FileSource)>, data: Json, codec: Codec, p: string)
    requires forall e :: e in plan ==> PathJoin(dir, e.0) != p
    ensures Lookup(WriteBundle(files, dir, plan, data, codec).0, p) == Lookup(files, p)
    decreases |plan|
  {
    if |plan| > 0 {
      var path := PathJoin(dir, plan[0].0);
      assert plan[0] in plan;
      match FileText(plan[0].1, data, codec)
      case None =>
      case Some(text) =>
        forall e | e in plan[1..] ensures PathJoin(dir, e.0) != p {
          assert e in plan;
        }
        WriteBundleFrame(files[path := text], dir, plan[1..], data, codec, p);
    }
  }

  /** The path of one bundle file of the device directory `dir`. */
  function BundlePath(dir: string, fileName: string): string
  {
    PathJoin(dir, fileName)
  }

  /**
    What `save_device_files` leaves behind, case by case. It succeeds exactly
    when the three key members are strings, and then the device directory
    holds `certificate.pem`, `private.key`, `public.key` and `metadata.json`
    with those texts and the serialized response, whatever was there before.
    It fails at the first member that is missing or not a string: the files
    written before it stay, its own file is left empty, the later files are
    untouched. No other file changes in any case.
   */
  lemma SaveOutcome(files: map<string, string>, dir: string, data: Json, codec: Codec)
    ensures var cert, priv, pub := GetString(data, "certificatePem"), GetString(data, "privateKey"), GetString(data, "publicKey");
            var certPath, privPath, pubPath, metaPath := BundlePath(dir, "certificate.pem"), BundlePath(dir, "private.key"),
                                                         BundlePath(dir, "public.key"), BundlePath(dir, "metadata.json");
            var (after, ok) := WriteBundle(files, dir, BundleLayout, data, codec);
            && (ok <==> cert.Some? && priv.Some? && pub.Some?)
            && (ok ==> after == files[certPath := cert.value][privPath := priv.value][pubPath := pub.value]
                                     [metaPath := codec.serialize(data)])
            && (cert.None? ==> after == files[certPath := ""])
            && (cert.Some? && priv.None? ==> after == files[certPath := cert.value][privPath := ""])
            && (cert.Some? && priv.Some? && pub.None? ==>
                  after == files[certPath := cert.value][privPath := priv.value][pubPath := ""])
  {
  }

  /** After a successful save, each bundle file of the device holds its text. */
  lemma SavedFiles(files: map<string, string>, dir: string, data: Json, codec: Codec, e: (string, FileSource))
    requires WriteBundle(files, dir, BundleLayout, data, codec).1
    requires e in BundleLayout
    ensures FileText(e.1, data, codec).Some?
    ensures Lookup(WriteBundle(files, dir, BundleLayout, data, codec).0, BundlePath(dir, e.0)) == FileText(e.1, data, codec)
  {
    SaveOutcome(files, dir, data, codec);
  }

  /**
    One `with open(path, "w") as f: f.write(data[key])` block: the file is
    created or truncated, then the member is written when it is a string.
   */
  method WriteMember(fs: FileSystem, path: string, data: Json, key: string) returns (ok: bool)
    modifies fs
    ensures ok <==> GetString(data, key).Some?
    ensures fs.files == old(fs.files)[path := if ok then GetString(data, key).value else ""]
  {
    fs.OpenForWrite(path);
    match GetString(data, key)
    case None =>
      ok := false;
    case Some(text) =>
      fs.Write(path, text);
      assert "" + text == text;
      ok := true;
  }

  /** The `with open(path, "w") as f: json.dump(data, f)` block: the file holds the serialized answer. */
  method WriteMetadata(fs: FileSystem, path: string, data: Json, codec: Codec)
    modifies fs
    ensures fs.files == old(fs.files)[path := codec.serialize(data)]
  {
    fs.OpenForWrite(path);
    fs.Write(path, codec.serialize(data));
    assert "" + codec.serialize(data) == codec.serialize(data);
  }

  /**
    `save_device_files(base_dir, device_name, data)`: four files written one
    after the other into `base_dir/device_name`, with no staging; `ok` is
    false when the function raises part-way.
   */
  method SaveDeviceFiles(fs: FileSystem, baseDir: string, deviceName: string, data: Json, codec: Codec)
    returns (ok: bool)
    modifies fs
    ensures (fs.files, ok) == WriteBundle(old(fs.files), PathJoin(baseDir, deviceName), BundleLayout, data, codec)
  {
    var devicePath := PathJoin(baseDir, deviceName);
    // os.makedirs(device_path, exist_ok=True): directories are implicit in the model
    SaveOutcome(fs.files, devicePath, data, codec);
    ghost var outcome := WriteBundle(fs.files, devicePath, BundleLayout, data, codec);
    ok := WriteMember(fs, PathJoin(devicePath, "certificate.pem"), data, "certificatePem");
    if !ok {
      assert fs.files == outcome.0 && !outcome.1;
      return;
    }
    ok := WriteMember(fs, PathJoin(devicePath, "private.key"), data, "privateKey");
    if !ok {
      assert fs.files == outcome.0 && !outcome.1;
      return;
    }
    ok := WriteMember(fs, PathJoin(devicePath, "public.key"), data, "publicKey");
    if !ok {
      assert fs.files == outcome.0 && !outcome.1;
      return;
    }
    WriteMetadata(fs, PathJoin(devicePath, "metadata.json"), data, codec);
    assert fs.files == outcome.0 && outcome.1;
  }

  // ---------------------------------------------------------------------
  //  The batch loop of main
  // ---------------------------------------------------------------------

  /** What the batch loop works with once the dialogs are answered. */
  datatype BatchEnv = BatchEnv(
    baseDir: string,
    prefix: string,
    userId: string,
    invoke: Json -> Option<Json>,
    codec: Codec)

  /** The files, the provisioning requests sent so far, and whether an exception ended the run. */
  datatype BatchState = BatchState(files: map<string, string>, requests: seq<Json>, aborted: bool)

  /** The request for device `i`. */
  function RequestFor(env: BatchEnv, i: int): Json
  {
    CreateDeviceRequest(DeviceName(env.prefix, i), env.userId)
  }

  /** The directory of device `i`. */
  function DeviceDir(env: BatchEnv, i: int): string
  {
    PathJoin(env.baseDir, DeviceName(env.prefix, i))
  }

  /** The answer to device `i`'s request reports `status == "ok"`. */
  predicate Provisioned(env: BatchEnv, i: int)
  {
    var r := env.invoke(RequestFor(env, i));
    r.Some? && Get(r.value, "status") == Some(JStr("ok"))
  }

  /**
    One pass of the loop body for device `i`. The request is sent; an
    invocation that raises, or an answer that is not a JSON object (so that
    `result.get` raises), ends the program; an answer whose status is "ok" is
    saved, and a save that raises ends the program; any other status is only
    reported and the loop goes on.
   */
  function ProvisionOne(env: BatchEnv, st: BatchState, i: int): BatchState
  {
    if st.aborted then st
    else
      var sent := st.(requests := st.requests + [RequestFor(env, i)]);
      match env.invoke(RequestFor(env, i))
      case None => sent.(aborted := true)
      case Some(result) =>
        if !result.JObj? then sent.(aborted := true)
        else if Get(result, "status") == Some(JStr("ok")) then
          var (files, ok) := WriteBundle(st.files, DeviceDir(env, i), BundleLayout, result, env.codec);
          sent.(files := files, aborted := !ok)
        else sent
  }

  /** The state after the first `k` passes of the loop over `start, start + 1, ...`. */
  function Batch(env: BatchEnv, initial: map<string, string>, start: int, k: nat): BatchState
  {
    if k == 0 then BatchState(initial, [], false)
    else ProvisionOne(env, Batch(env, initial, start, k - 1), start + k - 1)
  }

  /** Once an exception has ended the run, further passes change nothing. */
  lemma AbortIsFinal(env: BatchEnv, initial: map<string, string>, start: int, k: nat, m: nat)
    requires k <= m
    ensures Batch(env, initial, start, k).aborted ==> Batch(env, initial, start, m) == Batch(env, initial, start, k)
  {
    var n := k;
    while n < m
      invariant k <= n <= m
      invariant Batch(env, initial, start, k).aborted ==> Batch(env, initial, start, n) == Batch(env, initial, start, k)
    {
      n := n + 1;
      BatchStep(env, initial, start, n);
    }
  }

  /** An ended run stays ended. */
  lemma AbortPersists(env: BatchEnv, initial: map<string, string>, start: int, k: nat, m: nat)
    requires k <= m
    ensures Batch(env, initial, start, k).aborted ==> Batch(env, initial, start, m).aborted
  {
    AbortIsFinal(env, initial, start, k, m);
  }

  /** One pass appends its request unless the run has already ended, and never revives an ended run. */
  lemma ProvisionOneRequests(env: BatchEnv, st: BatchState, i: int)
    ensures ProvisionOne(env, st, i).requests
            == if st.aborted then st.requests else st.requests + [RequestFor(env, i)]
    ensures st.aborted ==> ProvisionOne(env, st, i).aborted
  {
    if !st.aborted {
      match env.invoke(RequestFor(env, i))
      case None =>
      case Some(result) =>
        if result.JObj? && Get(result, "status") == Some(JStr("ok")) {
          var (files, ok) := WriteBundle(st.files, DeviceDir(env, i), BundleLayout, result, env.codec);
          assert ProvisionOne(env, st, i) == st.(requests := st.requests + [RequestFor(env, i)], files := files, aborted := !ok);
        }
    }
  }

  /**
    The requests of a batch are the requests for `prefix-start`,
    `prefix-(start+1)`, ... in ascending order; a run that no exception ended
    sends exactly one per pass, and an ended run stops right after the request
    that ended it.
   */
  lemma {:induction false} BatchRequests(env: BatchEnv, initial: map<string, string>, start: int, k: nat)
    ensures var st := Batch(env, initial, start, k);
            && |st.requests| <= k
            && (!st.aborted ==> |st.requests| == k)
            && forall j :: 0 <= j < |st.requests| ==> st.requests[j] == RequestFor(env, start + j)
    decreases k
  {
    if k > 0 {
      BatchRequests(env, initial, start, k - 1);
      BatchRequestsStep(env, initial, start, k);
      var (prev, st) := (Batch(env, initial, start, k - 1), Batch(env, initial, start, k));
      RequestsExtend(env, prev.requests, prev.aborted, st.requests, st.aborted, start, k - 1);
    }
  }

  /**
    The loop sends, in order, the creation requests for the names `BatchNames`
    lists: one for each name unless an exception ended the run early.
   */
  lemma BatchRequestNames(env: BatchEnv, initial: map<string, string>, start: int, count: int)
    ensures var st := Batch(env, initial, start, Iterations(count));
            var names := BatchNames(env.prefix, start, count);
            && |st.requests| <= |names|
            && (!st.aborted ==> |st.requests| == |names|)
            && forall j :: 0 <= j < |st.requests| ==> st.requests[j] == CreateDeviceRequest(names[j], env.userId)
  {
    BatchRequests(env, initial, start, Iterations(count));
  }

  /** Pass `k` appends the request for `start + k - 1` unless the run had already ended, and an ended run stays ended. */
  lemma BatchRequestsStep(env: BatchEnv, initial: map<string, string>, start: int, k: nat)
    requires k > 0
    ensures var (prev, st) := (Batch(env, initial, start, k - 1), Batch(env, initial, start, k));
            && st.requests == (if prev.aborted then prev.requests else prev.requests + [RequestFor(env, start + k - 1)])
            && (prev.aborted ==> st.aborted)
  {
    BatchStep(env, initial, start, k);
    ProvisionOneRequests(env, Batch(env, initial, start, k - 1), start + k - 1);
  }

  /** Appending the next request, or nothing once the run has ended, keeps the requests numbered in order. */
  lemma RequestsExtend(env: BatchEnv, sent: seq<Json>, aborted: bool, next: seq<Json>, nextAborted: bool, start: int, n: nat)
    requires |sent| <= n && (!aborted ==> |sent| == n)
    requires forall j :: 0 <= j < |sent| ==> sent[j] == RequestFor(env, start + j)
    requires next == if aborted then sent else sent + [RequestFor(env, start + n)]
    requires aborted ==> nextAborted
    ensures |next| <= n + 1 && (!nextAborted ==> |next| == n + 1)
    ensures forall j :: 0 <= j < |next| ==> next[j] == RequestFor(env, start + j)
  {
    forall j | 0 <= j < |next| ensures next[j] == RequestFor(env, start + j) {
      if j < |sent| {
        assert next[j] == sent[j];
      }
    }
  }

  /** A response whose status is not "ok" writes nothing and does not end the run. */
  lemma ErrorStatusContinues(env: BatchEnv, st: BatchState, i: int)
    requires !st.aborted
    requires env.invoke(RequestFor(env, i)).Some? && env.invoke(RequestFor(env, i)).value.JObj?
    requires !Provisioned(env, i)
    ensures ProvisionOne(env, st, i) == st.(requests := st.requests + [RequestFor(env, i)])
  {
  }

  /** The prefix shared by every device directory of a batch: the directory of device `i` is this prefix followed by `str(i)`. */
  function DirPrefix(env: BatchEnv): string
  {
    if |env.prefix| > 0 && env.prefix[0] == '/' then env.prefix + "-"
    else env.baseDir + Separator(env.baseDir) + env.prefix + "-"
  }

  lemma DeviceDirShape(env: BatchEnv, i: int)
    ensures DeviceDir(env, i) == DirPrefix(env) + IntToString(i)
    ensures |DeviceDir(env, i)| > 0 && DeviceDir(env, i)[|DeviceDir(env, i)| - 1] != '/'
  {
    DeviceDirJoin(env, i);
    LastOfAppend(DirPrefix(env), IntToString(i));
  }

  /** The two ways `os.path.join` can place the device name: below `base_dir`, or alone for an absolute prefix. */
  lemma DeviceDirJoin(env: BatchEnv, i: int)
    ensures DeviceDir(env, i) == DirPrefix(env) + IntToString(i)
  {
    var s := IntToString(i);
    var d := DeviceDir(env, i);
    var n := DeviceName(env.prefix, i);
    var lead := env.prefix + "-";
    assert n == lead + s;
    if |env.prefix| > 0 && env.prefix[0] == '/' {
      assert n[0] == '/';
      assert d == n;
    } else {
      assert n[0] == lead[0] && lead[0] != '/';
      var base := env.baseDir + Separator(env.baseDir);
      assert d == base + n;
      assert base + n == (base + env.prefix + "-") + s;
    }
  }

  lemma LastOfAppend(a: string, b: string)
    requires |b| > 0
    ensures (a + b)[|a + b| - 1] == b[|b| - 1]
  {
  }

  /** A name of the bundle layout. */
  predicate LayoutName(f: string)
  {
    f in {"certificate.pem", "private.key", "public.key", "metadata.json"}
  }

  /** The path of a bundle file of device `i` is the batch's directory prefix, `str(i)`, a `/` and the file name. */
  lemma BundlePathShape(env: BatchEnv, i: int, f: string)
    requires LayoutName(f)
    ensures BundlePath(DeviceDir(env, i), f) == DirPrefix(env) + (IntToString(i) + "/" + f)
  {
    var s := IntToString(i);
    DeviceDirShape(env, i);
    assert s[|s| - 1] != '/' by { IntToStringSlashFree(i); }
    JoinBelow(DirPrefix(env), s, f);
  }

  /** Two strings with the same prefix are equal once it is cut off. */
  lemma DropCommonPrefix(k: string, x: string, y: string)
    requires k + x == k + y
    ensures x == y
  {
    assert x == (k + x)[|k|..];
    assert y == (k + y)[|k|..];
  }

  /** No two files of one batch share a path: device numbers and file names are recovered from the path. */
  lemma BundlePathsDistinct(env: BatchEnv, i: int, j: int, f: string, g: string)
    requires LayoutName(f) && LayoutName(g)
    requires BundlePath(DeviceDir(env, i), f) == BundlePath(DeviceDir(env, j), g)
    ensures i == j && f == g
  {
    BundlePathShape(env, i, f);
    BundlePathShape(env, j, g);
    var si, sj := IntToString(i), IntToString(j);
    DropCommonPrefix(DirPrefix(env), si + "/" + f, sj + "/" + g);
    IntToStringSlashFree(i);
    IntToStringSlashFree(j);
    CutAtSeparator(si, f, sj, g, '/');
    IntToStringInjective(i, j);
  }

  /** What a completed batch leaves in the file of layout entry `e` of device `i`. */
  function ExpectedFile(env: BatchEnv, initial: map<string, string>, i: int, e: (string, FileSource)): Option<string>
  {
    var r := env.invoke(RequestFor(env, i));
    if Provisioned(env, i) then FileText(e.1, r.value, env.codec)
    else Lookup(initial, BundlePath(DeviceDir(env, i), e.0))
  }

  /** One pass writes nothing outside the bundle files of its own device. */
  lemma ProvisionOneFrame(env: BatchEnv, st: BatchState, j: int, p: string)
    requires forall d :: d in BundleLayout ==> BundlePath(DeviceDir(env, j), d.0) != p
    ensures Lookup(ProvisionOne(env, st, j).files, p) == Lookup(st.files, p)
  {
    var r := env.invoke(RequestFor(env, j));
    if !st.aborted && r.Some? && r.value.JObj? && Get(r.value, "status") == Some(JStr("ok")) {
      WriteBundleFrame(st.files, DeviceDir(env, j), BundleLayout, r.value, env.codec, p);
    }
  }

  /** A pass that leaves the run going has either saved its device's bundle completely or written nothing. */
  lemma ProvisionOneSaves(env: BatchEnv, st: BatchState, i: int)
    requires !st.aborted && !ProvisionOne(env, st, i).aborted
    ensures Provisioned(env, i) ==>
              var w := WriteBundle(st.files, DeviceDir(env, i), BundleLayout, env.invoke(RequestFor(env, i)).value, env.codec);
              w.1 && ProvisionOne(env, st, i).files == w.0
    ensures !Provisioned(env, i) ==> ProvisionOne(env, st, i).files == st.files
  {
  }

  /** Device `j`'s bundle files are not device `i`'s when `i != j`. */
  lemma OtherDeviceFiles(env: BatchEnv, i: int, j: int, e: (string, FileSource))
    requires i != j && e in BundleLayout
    ensures forall d :: d in BundleLayout ==> BundlePath(DeviceDir(env, j), d.0) != BundlePath(DeviceDir(env, i), e.0)
  {
    forall d | d in BundleLayout
      ensures BundlePath(DeviceDir(env, j), d.0) != BundlePath(DeviceDir(env, i), e.0)
    {
      if BundlePath(DeviceDir(env, j), d.0) == BundlePath(DeviceDir(env, i), e.0) {
        BundlePathsDistinct(env, j, i, d.0, e.0);
      }
    }
  }

  /**
    After a batch that no exception ended, each device whose answer had
    status "ok" has its four bundle files with the texts of its own answer,
    and the bundle files of every other device of the batch are as they were
    before the batch: later devices never overwrite earlier ones.
   */
  lemma BatchFiles(env: BatchEnv, initial: map<string, string>, start: int, k: nat,
                   i: int, e: (string, FileSource))
    requires !Batch(env, initial, start, k).aborted
    requires start <= i < start + k
    requires e in BundleLayout
    ensures Provisioned(env, i) ==> FileText(e.1, env.invoke(RequestFor(env, i)).value, env.codec).Some?
    ensures Lookup(Batch(env, initial, start, k).files, BundlePath(DeviceDir(env, i), e.0))
            == ExpectedFile(env, initial, i, e)
  {
    AbortPersists(env, initial, start, i - start + 1, k);
    OwnPassSaves(env, initial, start, i - start + 1, i, e);
    OwnDeviceStep(env, initial, start, i - start + 1, i, e, ExpectedFile(env, initial, i, e));
    OtherPasses(env, initial, start, i - start + 1, k, i, e);
  }

  /** A pass that leaves the run going has saved every file of its device's bundle when the answer was "ok". */
  lemma OwnPassSaves(env: BatchEnv, initial: map<string, string>, start: int, n: nat, i: int, e: (string, FileSource))
    requires 0 < n && i == start + n - 1 && e in BundleLayout
    requires !Batch(env, initial, start, n).aborted
    ensures Provisioned(env, i) ==> FileText(e.1, env.invoke(RequestFor(env, i)).value, env.codec).Some?
  {
    var prev := Batch(env, initial, start, n - 1);
    BatchStep(env, initial, start, n);
    ProvisionOneRequests(env, prev, i);
    ProvisionOneSaves(env, prev, i);
    if Provisioned(env, i) {
      SavedFiles(prev.files, DeviceDir(env, i), env.invoke(RequestFor(env, i)).value, env.codec, e);
    }
  }

  /** Right after its own pass, which left the run going, device `i`'s files are as `ExpectedFile` says. */
  lemma OwnDeviceStep(env: BatchEnv, initial: map<string, string>, start: int, k: nat, i: int, e: (string, FileSource),
                      expected: Option<string>)
    requires 0 < k && i == start + k - 1 && e in BundleLayout
    requires !Batch(env, initial, start, k).aborted
    requires expected == ExpectedFile(env, initial, i, e)
    ensures Lookup(Batch(env, initial, start, k).files, BundlePath(DeviceDir(env, i), e.0)) == expected
  {
    BatchUntouched(env, initial, start, k - 1, i, e);
    StepFiles(env, initial, start, k, i, e);
  }

  /** Device `i`'s own pass turns files its earlier passes left untouched into what `ExpectedFile` says. */
  lemma StepFiles(env: BatchEnv, initial: map<string, string>, start: int, k: nat, i: int, e: (string, FileSource))
    requires 0 < k && i == start + k - 1 && e in BundleLayout
    requires !Batch(env, initial, start, k).aborted
    requires Lookup(Batch(env, initial, start, k - 1).files, BundlePath(DeviceDir(env, i), e.0))
             == Lookup(initial, BundlePath(DeviceDir(env, i), e.0))
    ensures Lookup(Batch(env, initial, start, k).files, BundlePath(DeviceDir(env, i), e.0))
            == ExpectedFile(env, initial, i, e)
  {
    BatchStep(env, initial, start, k);
    ProvisionOneRequests(env, Batch(env, initial, start, k - 1), i);
    LastDeviceFiles(env, initial, Batch(env, initial, start, k - 1), i, e);
  }

  /** The pass for device `i` leaves its bundle files as `ExpectedFile` says, given that earlier passes left them untouched. */
  lemma LastDeviceFiles(env: BatchEnv, initial: map<string, string>, prev: BatchState, i: int, e: (string, FileSource))
    requires !prev.aborted && !ProvisionOne(env, prev, i).aborted
    requires e in BundleLayout
    requires Lookup(prev.files, BundlePath(DeviceDir(env, i), e.0)) == Lookup(initial, BundlePath(DeviceDir(env, i), e.0))
    ensures Lookup(ProvisionOne(env, prev, i).files, BundlePath(DeviceDir(env, i), e.0)) == ExpectedFile(env, initial, i, e)
  {
    ProvisionOneSaves(env, prev, i);
    if Provisioned(env, i) {
      SavedFiles(prev.files, DeviceDir(env, i), env.invoke(RequestFor(env, i)).value, env.codec, e);
    }
  }

  /** The last pass of a batch of `k` passes. */
  lemma BatchStep(env: BatchEnv, initial: map<string, string>, start: int, k: nat)
    requires k > 0
    ensures Batch(env, initial, start, k) == ProvisionOne(env, Batch(env, initial, start, k - 1), start + k - 1)
  {
  }

  /** Passes before device `i` never write device `i`'s bundle files. */
  lemma BatchUntouched(env: BatchEnv, initial: map<string, string>, start: int, k: nat,
                       i: int, e: (string, FileSource))
    requires start + k <= i
    requires e in BundleLayout
    ensures Lookup(Batch(env, initial, start, k).files, BundlePath(DeviceDir(env, i), e.0))
            == Lookup(initial, BundlePath(DeviceDir(env, i), e.0))
  {
    OtherPasses(env, initial, start, 0, k, i, e);
  }

  /** Passes `n + 1` to `k`, none of them for device `i`, leave device `i`'s bundle files as they were. */
  lemma OtherPasses(env: BatchEnv, initial: map<string, string>, start: int, n: nat, k: nat,
                    i: int, e: (string, FileSource))
    requires n <= k && (i < start + n || start + k <= i) && e in BundleLayout
    ensures Lookup(Batch(env, initial, start, k).files, BundlePath(DeviceDir(env, i), e.0))
            == Lookup(Batch(env, initial, start, n).files, BundlePath(DeviceDir(env, i), e.0))
  {
    var p := BundlePath(DeviceDir(env, i), e.0);
    forall m: nat | n < m <= k
      ensures Lookup(Batch(env, initial, start, m).files, p) == Lookup(Batch(env, initial, start, m - 1).files, p)
    {
      OtherPassKeeps(env, initial, start, m, i, e, Lookup(Batch(env, initial, start, m - 1).files, p));
    }
    PathKept(env, initial, start, n, k, p);
  }

  /** A path that no pass from `n + 1` to `k` changes holds after pass `k` what it held after pass `n`. */
  lemma PathKept(env: BatchEnv, initial: map<string, string>, start: int, n: nat, k: nat, p: string)
    requires n <= k
    requires forall m: nat :: n < m <= k ==>
               Lookup(Batch(env, initial, start, m).files, p) == Lookup(Batch(env, initial, start, m - 1).files, p)
    ensures Lookup(Batch(env, initial, start, k).files, p) == Lookup(Batch(env, initial, start, n).files, p)
  {
    var m := n;
    while m < k
      invariant n <= m <= k
      invariant Lookup(Batch(env, initial, start, m).files, p) == Lookup(Batch(env, initial, start, n).files, p)
    {
      m := m + 1;
    }
  }

  /** The pass for another device than `i` keeps whatever device `i`'s files hold. */
  lemma OtherPassKeeps(env: BatchEnv, initial: map<string, string>, start: int, k: nat,
                       i: int, e: (string, FileSource), v: Option<string>)
    requires 0 < k && i != start + k - 1 && e in BundleLayout
    requires Lookup(Batch(env, initial, start, k - 1).files, BundlePath(DeviceDir(env, i), e.0)) == v
    ensures Lookup(Batch(env, initial, start, k).files, BundlePath(DeviceDir(env, i), e.0)) == v
  {
    var prev, next := Batch(env, initial, start, k - 1), Batch(env, initial, start, k);
    BatchStep(env, initial, start, k);
    OtherDeviceUntouched(env, prev, next, i, start + k - 1, e);
  }

  /** The pass for device `j`, from `prev` to `next`, leaves device `i`'s bundle files alone when `i != j`. */
  lemma OtherDeviceUntouched(env: BatchEnv, prev: BatchState, next: BatchState, i: int, j: int, e: (string, FileSource))
    requires i != j && e in BundleLayout
    requires next == ProvisionOne(env, prev, j)
    ensures Lookup(next.files, BundlePath(DeviceDir(env, i), e.0)) == Lookup(prev.files, BundlePath(DeviceDir(env, i), e.0))
  {
    OtherDeviceFiles(env, i, j, e);
    ProvisionOneFrame(env, prev, j, BundlePath(DeviceDir(env, i), e.0));
  }

  /**
    The body of `main`'s loop for device `i`: send the request, then save the
    bundle when the status is "ok". `aborted` is true when an exception ends
    the program.
   */
  method ProvisionDevice(fs: FileSystem, env: BatchEnv, i: int, ghost st: BatchState) returns (request: Json, aborted: bool)
    requires st.files == fs.files && !st.aborted
    modifies fs
    ensures BatchState(fs.files, st.requests + [request], aborted) == ProvisionOne(env, st, i)
  {
    var thingName := DeviceName(env.prefix, i);
    request := CreateDeviceRequest(thingName, env.userId);
    var result := env.invoke(request);
    aborted := false;
    match result {
      case None =>
        aborted := true;
      case Some(r) =>
        if !r.JObj? {
          aborted := true;
        } else if Get(r, "status") == Some(JStr("ok")) {
          var ok := SaveDeviceFiles(fs, env.baseDir, thingName, r, env.codec);
          aborted := !ok;
        }
    }
  }

  /**
    The loop `for i in range(start, end + 1)` of `main`, with
    `end = start + count - 1`. The loop ends early when an exception ends the
    program (`aborted`).
   */
  method RunBatch(fs: FileSystem, env: BatchEnv, start: int, count: int) returns (requests: seq<Json>, aborted: bool)
    modifies fs
    ensures BatchState(fs.files, requests, aborted) == Batch(env, old(fs.files), start, Iterations(count))
  {
    ghost var initial := fs.files;
    var end := start + count - 1;
    var i := start;
    requests, aborted := [], false;
    ghost var k: nat := 0;
    while i <= end && !aborted
      invariant i == start + k && k <= Iterations(count)
      invariant BatchState(fs.files, requests, aborted) == Batch(env, initial, start, k)
      decreases end + 1 - i
    {
      var request;
      BatchStep(env, initial, start, k + 1);
      request, aborted := ProvisionDevice(fs, env, i, Batch(env, initial, start, k));
      requests := requests + [request];
      i, k := i + 1, k + 1;
    }
    if aborted {
      AbortIsFinal(env, initial, start, k, Iterations(count));
    } else {
      assert k == Iterations(count);
    }
  }

  // ---------------------------------------------------------------------
  //  main
  // ---------------------------------------------------------------------

  /** The answers to `main`'s dialogs: `None` for a cancelled prompt, `""` for a cancelled folder choice. */
  datatype Answers = Answers(
    prefix: Option<string>,
    start: Option<int>,
    count: Option<int>,
    user: Option<string>,
    folder: string)

  /** `main` gives up before provisioning anything: no prefix, no start, no count, or no folder. */
  predicate Cancelled(a: Answers)
  {
    a.prefix.None? || a.prefix.value == "" || a.start.None? || a.count.None? || a.folder == ""
  }

  /** The user id `main` uses: the answer, or "juan" when it is missing or empty. */
  function UserOrDefault(user: Option<string>): (u: string)
    ensures user.Some? && user.value != "" ==> u == user.value
    ensures user.None? || user.value == "" ==> u == "juan"
    ensures u != ""
  {
    if user.None? || user.value == "" then "juan" else user.value
  }

  /** The batch environment `main` sets up from the dialogs. */
  function EnvOf(a: Answers, invoke: Json -> Option<Json>, codec: Codec): BatchEnv
    requires !Cancelled(a)
  {
    BatchEnv(a.folder, a.prefix.value, UserOrDefault(a.user), invoke, codec)
  }

  /**
    `main`: checks the answers in the order the dialogs come and returns
    before any provisioning call when one of them is missing; otherwise runs
    the batch.
   */
  method CreateDevicesMain(fs: FileSystem, a: Answers, invoke: Json -> Option<Json>, codec: Codec)
    returns (requests: seq<Json>, aborted: bool)
    modifies fs
    ensures Cancelled(a) ==> requests == [] && !aborted && fs.files == old(fs.files)
    ensures !Cancelled(a) ==>
              BatchState(fs.files, requests, aborted)
              == Batch(EnvOf(a, invoke, codec), old(fs.files), a.start.value, Iterations(a.count.value))
  {
    requests, aborted := [], false;
    if a.prefix.None? || a.prefix.value == "" {
      return;
    }
    if a.start.None? {
      return;
    }
    if a.count.None? {
      return;
    }
    var user := UserOrDefault(a.user);
    if a.folder == "" {
      return;
    }
    var env := BatchEnv(a.folder, a.prefix.value, user, invoke, codec);
    requests, aborted := RunBatch(fs, env, a.start.value, a.count.value);
  }
}
