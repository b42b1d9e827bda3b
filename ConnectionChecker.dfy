/** One round of connection checks (connection_checker.py): HyperHDR, ESP32
    and Philips Hue over HTTP, then the Raspberry Pi over SSH. Each check is
    guarded on its own, writes exactly one entry into the results map, and
    writes its failures to the system log; the round ends with a summary line.

    The network, the SSH client and the two JSON files are inputs: the model
    decides what the code decides from them. */
module ConnectionChecker {
  import opened Wrappers
  import opened PyText
  import opened LogFormat

  /** What `json.load` gave for a configuration file: a JSON object (its
      values as the text that `str()` would give them) or some other JSON
      value, which has no `.get`. */
  datatype JsonDoc = Object(fields: map<string, string>) | NotObject(typeName: string)

  /** Reading and parsing a configuration file: the exception text, or the document. */
  datatype JsonFile = Unreadable(error: string) | Parsed(doc: JsonDoc)

  /** What `requests.get(url, timeout=5)` did: raised, or answered with `resp.ok`. */
  datatype HttpReply = Raised(error: string) | Response(ok: bool)

  /** What the SSH session did once paramiko was imported: an
      `AuthenticationException`, any other exception (from connect,
      exec_command, decoding or close), or the raw text of stdout. */
  datatype SshReply = AuthRejected | Failed(error: string) | Output(raw: string)

  /** Whether `import paramiko` succeeds, with the exception text if not. */
  datatype Paramiko = Importable | ImportFails(error: string)

  /** Everything outside the module: whether `requests` imported, the HTTP
      replies by URL, the paramiko import and the SSH session by
      (host, username, password). */
  datatype Environment = Environment(
    requestsAvailable: bool,
    http: string -> HttpReply,
    paramiko: Paramiko,
    ssh: (string, string, string) -> SshReply)

  /** One guarded block: the entry it writes into `results` and the
      messages it passes to `_log`, in order. */
  datatype CheckOutcome = CheckOutcome(status: string, messages: seq<string>)

  const Devices: set<string> := {"hyperhdr", "esp32", "hue", "ssh"}

  // ---------------------------------------------------------------------
  // Specification functions

  /** The value `_load_json` returns: the parsed document, or `{}`. */
  function LoadedDoc(file: JsonFile): JsonDoc {
    match file
    case Unreadable(_) => Object(map[])
    case Parsed(doc) => doc
  }

  /** The messages `_load_json` logs for the file called `name`. */
  function LoadMessages(name: string, file: JsonFile): seq<string> {
    match file
    case Unreadable(e) => ["Failed to load " + name + ": " + e]
    case Parsed(_) => []
  }

  /** `doc.get(key, default)`; on a value that is not a dict the attribute
      lookup raises. */
  function Get(doc: JsonDoc, key: string, default: string): Result<string, string> {
    match doc
    case Object(fields) => Success(if key in fields then fields[key] else default)
    case NotObject(t) => Failure("'" + t + "' object has no attribute 'get'")
  }

  /** `fields.get(key, default)` on a dict. */
  function Field(fields: map<string, string>, key: string, default: string): string {
    if key in fields then fields[key] else default
  }

  function HyperHdrUrl(config: JsonDoc): Result<string, string> {
    var ip :- Get(config, "hyperhdr_ip", "localhost");
    var port :- Get(config, "hyperhdr_port", "8090");
    Success("http://" + ip + ":" + port + "/json-rpc")
  }

  function Esp32Url(config: JsonDoc): Result<string, string> {
    var ip :- Get(config, "esp32_ip", "");
    Success("http://" + ip + "/ping")
  }

  function HueUrl(config: JsonDoc, secrets: JsonDoc): Result<string, string> {
    var ip :- Get(config, "hue_ip", "");
    var token :- Get(secrets, "hue_token", "");
    Success("http://" + ip + "/api/" + token + "/config")
  }

  /** The HTTP block for `device`: `"online"` exactly when the request was
      made and answered with `resp.ok`; otherwise `"offline"`, and one log
      message exactly when something raised. */
  function HttpCheck(device: string, env: Environment, url: Result<string, string>): (o: CheckOutcome)
    ensures o.status == "online" || o.status == "offline"
    ensures o.status == "online" <==> env.requestsAvailable && url.Success? && env.http(url.value) == Response(true)
    ensures o.messages == [] <==> env.requestsAvailable && url.Success? && env.http(url.value).Response?
    ensures |o.messages| <= 1
  {
    if !env.requestsAvailable then HttpFailure(device, "requests not available")
    else match url
      case Failure(e) => HttpFailure(device, e)
      case Success(u) =>
        match env.http(u)
        case Raised(e) => HttpFailure(device, e)
        case Response(ok) => CheckOutcome(if ok then "online" else "offline", [])
  }

  /** Each way an HTTP block can raise gives `"offline"` and the one
      message naming the device and the exception. */
  lemma HttpFailureCases(device: string, env: Environment, url: Result<string, string>)
    ensures !env.requestsAvailable ==> HttpCheck(device, env, url) == HttpFailure(device, "requests not available")
    ensures env.requestsAvailable && url.Failure? ==> HttpCheck(device, env, url) == HttpFailure(device, url.error)
    ensures env.requestsAvailable && url.Success? && env.http(url.value).Raised?
      ==> HttpCheck(device, env, url) == HttpFailure(device, env.http(url.value).error)
    ensures HttpFailure(device, "requests not available").messages
         == [device + " check failed: requests not available"]
  {
    assert device + " check failed: " + "requests not available" == device + " check failed: requests not available";
  }

  /** A guarded HTTP block whose body raised: `"offline"` and one
      `"<Device> check failed: <exception>"` message. */
  function HttpFailure(device: string, error: string): CheckOutcome {
    CheckOutcome("offline", [device + " check failed: " + error])
  }

  /** The SSH block. */
  function SshCheck(env: Environment, config: JsonDoc, secrets: JsonDoc): (o: CheckOutcome)
    ensures o.status in {"missing paramiko", "auth failed", "offline", "unknown"}
         || (o.status != [] && !IsSpace(o.status[0]) && !IsSpace(o.status[|o.status| - 1]))
    ensures |o.messages| <= 1
  {
    match env.paramiko
    case ImportFails(e) => CheckOutcome("missing paramiko", ["Paramiko import failed: " + e])
    case Importable =>
      match SshCredentials(config, secrets)
      case Failure(e) => CheckOutcome("offline", ["SSH check failed: " + e])
      case Success(c) => SshClassify(env.ssh(c.0, c.1, c.2))
  }

  /** Host, username and password, looked up in that order. */
  function SshCredentials(config: JsonDoc, secrets: JsonDoc): Result<(string, string, string), string> {
    var host :- Get(config, "raspberry_ip", "");
    var username :- Get(secrets, "ssh_user", "");
    var password :- Get(secrets, "ssh_password", "");
    Success((host, username, password))
  }

  function SshClassify(reply: SshReply): CheckOutcome {
    match reply
    case AuthRejected => CheckOutcome("auth failed", ["SSH authentication failed"])
    case Failed(e) => CheckOutcome("offline", ["SSH check failed: " + e])
    case Output(raw) =>
      var output := Strip(raw);
      CheckOutcome(if output != "" then output else "unknown", [])
  }

  function HyperHdrOutcome(config: JsonDoc, env: Environment): CheckOutcome {
    HttpCheck("HyperHDR", env, HyperHdrUrl(config))
  }

  function Esp32Outcome(config: JsonDoc, env: Environment): CheckOutcome {
    HttpCheck("ESP32", env, Esp32Url(config))
  }

  function HueOutcome(config: JsonDoc, secrets: JsonDoc, env: Environment): CheckOutcome {
    HttpCheck("Hue", env, HueUrl(config, secrets))
  }

  /** The dict the four guarded blocks build from the loaded documents. */
  function Checks(config: JsonDoc, secrets: JsonDoc, env: Environment): map<string, string> {
    map[
      "hyperhdr" := HyperHdrOutcome(config, env).status,
      "esp32" := Esp32Outcome(config, env).status,
      "hue" := HueOutcome(config, secrets, env).status,
      "ssh" := SshCheck(env, config, secrets).status]
  }

  /** The messages the three HTTP blocks log, in order. */
  function HttpMessages(config: JsonDoc, secrets: JsonDoc, env: Environment): (messages: seq<string>)
    ensures |messages| <= 3
  {
    HyperHdrOutcome(config, env).messages
      + Esp32Outcome(config, env).messages
      + HueOutcome(config, secrets, env).messages
  }

  /** The messages the four guarded blocks log, in order: at most one each. */
  function CheckMessages(config: JsonDoc, secrets: JsonDoc, env: Environment): (messages: seq<string>)
    ensures |messages| <= 4
  {
    HttpMessages(config, secrets, env) + SshCheck(env, config, secrets).messages
  }

  /** The dict `check_all_connections` returns. */
  function Round(configFile: JsonFile, secretsFile: JsonFile, env: Environment): map<string, string> {
    Checks(LoadedDoc(configFile), LoadedDoc(secretsFile), env)
  }

  /** `f"Connection summary: {results}"`: the dict's repr, keys in insertion order. */
  function Summary(results: map<string, string>): (summary: string)
    requires Devices <= results.Keys
    ensures StartsWith(summary, "Connection summary: {'hyperhdr': ")
    ensures summary[|summary| - 1] == '}'
    ensures |summary| > |results["hyperhdr"]| + |results["esp32"]| + |results["hue"]| + |results["ssh"]|
  {
    var head := "Connection summary: {'hyperhdr': ";
    var entries := Repr(results["hyperhdr"])
      + (", 'esp32': " + Repr(results["esp32"]))
      + (", 'hue': " + Repr(results["hue"]))
      + (", 'ssh': " + Repr(results["ssh"]));
    assert (head + (entries + "}"))[..|head|] == head;
    head + (entries + "}")
  }

  /** Every message the round passes to `_log`, in order. */
  function RoundMessages(configFile: JsonFile, secretsFile: JsonFile, env: Environment): seq<string>
    requires Devices <= Round(configFile, secretsFile, env).Keys
  {
    LoadMessages("config.json", configFile)
      + LoadMessages("secrets.json", secretsFile)
      + CheckMessages(LoadedDoc(configFile), LoadedDoc(secretsFile), env)
      + [Summary(Round(configFile, secretsFile, env))]
  }

  // ---------------------------------------------------------------------
  // Properties of a round

  /** Whatever the files and the probes do, the round's dict has exactly
      the four keys, and each HTTP entry is one of two fixed words. */
  lemma RoundEntries(configFile: JsonFile, secretsFile: JsonFile, env: Environment)
    ensures var results := Round(configFile, secretsFile, env);
      && results.Keys == Devices
      && results["hyperhdr"] in {"online", "offline"}
      && results["esp32"] in {"online", "offline"}
      && results["hue"] in {"online", "offline"}
  {
  }

  /** The round logs between one and seven lines, and the last is the summary. */
  lemma SummaryIsLast(configFile: JsonFile, secretsFile: JsonFile, env: Environment)
    ensures Devices <= Round(configFile, secretsFile, env).Keys
    ensures var messages := RoundMessages(configFile, secretsFile, env);
      && 1 <= |messages| <= 7
      && messages[|messages| - 1] == Summary(Round(configFile, secretsFile, env))
  {
  }

  /** Each HTTP entry is `"online"` exactly when requests is importable,
      the configuration is a JSON object, and the GET of the URL built from
      its fields (with the `.get` defaults) answered with `resp.ok`. */
  lemma HttpEntries(configFile: JsonFile, secretsFile: JsonFile, env: Environment)
    ensures var config, secrets := LoadedDoc(configFile), LoadedDoc(secretsFile);
      && (Round(configFile, secretsFile, env)["hyperhdr"] == "online" <==>
          env.requestsAvailable && config.Object?
          && env.http("http://" + Field(config.fields, "hyperhdr_ip", "localhost") + ":"
                      + Field(config.fields, "hyperhdr_port", "8090") + "/json-rpc") == Response(true))
      && (Round(configFile, secretsFile, env)["esp32"] == "online" <==>
          env.requestsAvailable && config.Object?
          && env.http("http://" + Field(config.fields, "esp32_ip", "") + "/ping") == Response(true))
      && (Round(configFile, secretsFile, env)["hue"] == "online" <==>
          env.requestsAvailable && config.Object? && secrets.Object?
          && env.http("http://" + Field(config.fields, "hue_ip", "") + "/api/"
                      + Field(secrets.fields, "hue_token", "") + "/config") == Response(true))
  {
  }

  /** With neither file readable, every lookup takes its default. */
  lemma UnreadableFilesUseDefaults(configFile: JsonFile, secretsFile: JsonFile, env: Environment)
    requires configFile.Unreadable? && secretsFile.Unreadable?
    ensures HyperHdrUrl(LoadedDoc(configFile)) == Success("http://localhost:8090/json-rpc")
    ensures Esp32Url(LoadedDoc(configFile)) == Success("http:///ping")
    ensures HueUrl(LoadedDoc(configFile), LoadedDoc(secretsFile)) == Success("http:///api//config")
    ensures SshCredentials(LoadedDoc(configFile), LoadedDoc(secretsFile)) == Success(("", "", ""))
    ensures LoadMessages("config.json", configFile) == ["Failed to load config.json: " + configFile.error]
    ensures LoadMessages("secrets.json", secretsFile) == ["Failed to load secrets.json: " + secretsFile.error]
  {
    assert "Failed to load " + "config.json" + ": " == "Failed to load config.json: ";
    assert "Failed to load " + "secrets.json" + ": " == "Failed to load secrets.json: ";
    assert "http://" + "localhost" + ":" + "8090" + "/json-rpc" == "http://localhost:8090/json-rpc";
    assert "http://" + "" + "/ping" == "http:///ping";
    assert "http://" + "" + "/api/" + "" + "/config" == "http:///api//config";
  }

  /** Without `requests`, the three HTTP entries are `"offline"` and each
      block logs that requests is not available. */
  lemma RequestsMissing(configFile: JsonFile, secretsFile: JsonFile, env: Environment)
    requires !env.requestsAvailable
    ensures var results := Round(configFile, secretsFile, env);
      results["hyperhdr"] == results["esp32"] == results["hue"] == "offline"
    ensures HyperHdrOutcome(LoadedDoc(configFile), env) == HttpFailure("HyperHDR", "requests not available")
    ensures Esp32Outcome(LoadedDoc(configFile), env) == HttpFailure("ESP32", "requests not available")
    ensures HueOutcome(LoadedDoc(configFile), LoadedDoc(secretsFile), env) == HttpFailure("Hue", "requests not available")
  {
  }

  /** The SSH entry, case by case. */
  lemma SshEntry(config: JsonDoc, secrets: JsonDoc, env: Environment)
    ensures var o := SshCheck(env, config, secrets);
      match env.paramiko
      case ImportFails(e) =>
        o == CheckOutcome("missing paramiko", ["Paramiko import failed: " + e])
      case Importable =>
        if config.Object? && secrets.Object? then
          match env.ssh(Field(config.fields, "raspberry_ip", ""),
                        Field(secrets.fields, "ssh_user", ""),
                        Field(secrets.fields, "ssh_password", ""))
          case Output(raw) =>
            o.messages == [] && (if AllSpace(raw) then o.status == "unknown" else o.status == Strip(raw))
          case AuthRejected => o == CheckOutcome("auth failed", ["SSH authentication failed"])
          case Failed(e) => o == CheckOutcome("offline", ["SSH check failed: " + e])
        else
          o.status == "offline" && |o.messages| == 1 && StartsWith(o.messages[0], "SSH check failed: ")
  {
  }

  /** A failure in one check never changes another: two environments that
      differ only in the HyperHDR reply (and in the SSH session) give the
      same ESP32 and Hue entries and log messages. */
  lemma ChecksIsolated(configFile: JsonFile, secretsFile: JsonFile, env: Environment, env': Environment)
    requires env.requestsAvailable == env'.requestsAvailable
    requires var config := LoadedDoc(configFile);
      Esp32Url(config).Success? ==> env.http(Esp32Url(config).value) == env'.http(Esp32Url(config).value)
    requires var config, secrets := LoadedDoc(configFile), LoadedDoc(secretsFile);
      HueUrl(config, secrets).Success? ==> env.http(HueUrl(config, secrets).value) == env'.http(HueUrl(config, secrets).value)
    ensures Esp32Outcome(LoadedDoc(configFile), env) == Esp32Outcome(LoadedDoc(configFile), env')
    ensures HueOutcome(LoadedDoc(configFile), LoadedDoc(secretsFile), env) == HueOutcome(LoadedDoc(configFile), LoadedDoc(secretsFile), env')
    ensures Round(configFile, secretsFile, env)["esp32"] == Round(configFile, secretsFile, env')["esp32"]
    ensures Round(configFile, secretsFile, env)["hue"] == Round(configFile, secretsFile, env')["hue"]
  {
  }

  /** A fixed status word appears in the summary line between single quotes. */
  lemma StatusWordRepr(w: string)
    requires w in {"missing paramiko", "auth failed", "offline", "unknown", "online"}
    ensures Repr(w) == "'" + w + "'"
  {
    ReprPlain(w);
  }

  // ---------------------------------------------------------------------
  // The imperative round

  /** The system log file `logs/system.log`: its lines, appended to only. */
  class SystemLog {
    var lines: seq<string>

    constructor (lines: seq<string>)
      ensures this.lines == lines
    {
      this.lines := lines;
    }

    /** `_log`: one line stamped with the current time, earlier lines kept. */
    method Log(clock: Clock, message: string)
      modifies this, clock
      ensures lines == old(lines) + [Line(clock.readings(old(clock.taken)), message)]
      ensures clock.taken == old(clock.taken) + 1
    {
      var timestamp := clock.Now();
      lines := lines + [Line(timestamp, message)];
    }
  }

  /** `_load_json`: the parsed document, or `{}` after logging why. */
  method LoadJson(log: SystemLog, clock: Clock, name: string, file: JsonFile) returns (doc: JsonDoc)
    modifies log, clock
    ensures doc == LoadedDoc(file)
    ensures file.Parsed? ==> doc == file.doc
    ensures file.Unreadable? ==> doc == Object(map[])
    ensures log.lines == old(log.lines) + Stamped(clock.readings, old(clock.taken), LoadMessages(name, file))
    ensures clock.taken == old(clock.taken) + |LoadMessages(name, file)|
  {
    match file
    case Parsed(d) =>
      doc := d;
    case Unreadable(e) =>
      log.Log(clock, "Failed to load " + name + ": " + e);
      doc := Object(map[]);
  }

  /** One guarded HTTP block. */
  method RunHttpCheck(log: SystemLog, clock: Clock, device: string, env: Environment, url: Result<string, string>)
    returns (status: string)
    modifies log, clock
    ensures status == HttpCheck(device, env, url).status
    ensures log.lines == old(log.lines) + Stamped(clock.readings, old(clock.taken), HttpCheck(device, env, url).messages)
    ensures clock.taken == old(clock.taken) + |HttpCheck(device, env, url).messages|
  {
    var error: string;
    if !env.requestsAvailable {
      error := "requests not available";
    } else if url.Failure? {
      error := url.error;
    } else {
      var reply := env.http(url.value);
      if reply.Response? {
        status := if reply.ok then "online" else "offline";
        return;
      }
      error := reply.error;
    }
    log.Log(clock, device + " check failed: " + error);
    status := "offline";
  }

  /** The SSH block, with the paramiko import guarded on its own. */
  method RunSshCheck(log: SystemLog, clock: Clock, env: Environment, config: JsonDoc, secrets: JsonDoc)
    returns (status: string)
    modifies log, clock
    ensures status == SshCheck(env, config, secrets).status
    ensures log.lines == old(log.lines) + Stamped(clock.readings, old(clock.taken), SshCheck(env, config, secrets).messages)
    ensures clock.taken == old(clock.taken) + |SshCheck(env, config, secrets).messages|
  {
    if env.paramiko.ImportFails? {
      log.Log(clock, "Paramiko import failed: " + env.paramiko.error);
      status := "missing paramiko";
      return;
    }
    var credentials := SshCredentials(config, secrets);
    if credentials.Failure? {
      status := "offline";
      log.Log(clock, "SSH check failed: " + credentials.error);
      return;
    }
    var (host, username, password) := credentials.value;
    status := RunSshSession(log, clock, env.ssh(host, username, password));
  }

  /** The SSH session once the credentials are known: the stripped output
      of `echo online`, or the failure it ended with. */
  method RunSshSession(log: SystemLog, clock: Clock, reply: SshReply) returns (status: string)
    modifies log, clock
    ensures status == SshClassify(reply).status
    ensures log.lines == old(log.lines) + Stamped(clock.readings, old(clock.taken), SshClassify(reply).messages)
    ensures clock.taken == old(clock.taken) + |SshClassify(reply).messages|
  {
    match reply
    case Output(raw) =>
      var output := Strip(raw);
      status := if output != "" then output else "unknown";
    case AuthRejected =>
      status := "auth failed";
      log.Log(clock, "SSH authentication failed");
    case Failed(e) =>
      status := "offline";
      log.Log(clock, "SSH check failed: " + e);
  }

  /** The three guarded HTTP blocks of `check_all_connections`, in order. */
  method RunHttpChecks(log: SystemLog, clock: Clock, config: JsonDoc, secrets: JsonDoc, env: Environment)
    returns (hyperhdr: string, esp32: string, hue: string)
    modifies log, clock
    ensures hyperhdr == HyperHdrOutcome(config, env).status
    ensures esp32 == Esp32Outcome(config, env).status
    ensures hue == HueOutcome(config, secrets, env).status
    ensures log.lines == old(log.lines) + Stamped(clock.readings, old(clock.taken), HttpMessages(config, secrets, env))
    ensures clock.taken == old(clock.taken) + |HttpMessages(config, secrets, env)|
  {
    ghost var start, before, readings := clock.taken, log.lines, clock.readings;
    ghost var first, second, third :=
      HyperHdrOutcome(config, env).messages, Esp32Outcome(config, env).messages, HueOutcome(config, secrets, env).messages;
    hyperhdr := RunHttpCheck(log, clock, "HyperHDR", env, HyperHdrUrl(config));
    ghost var t1 := clock.taken;
    esp32 := RunHttpCheck(log, clock, "ESP32", env, Esp32Url(config));
    ghost var t2 := clock.taken;
    hue := RunHttpCheck(log, clock, "Hue", env, HueUrl(config, secrets));
    StampedExtend(readings, start, t1, before, first, second);
    StampedExtend(readings, start, t2, before, first + second, third);
  }

  /** The four guarded blocks of `check_all_connections`, in order, each
      writing its own entry of `results`. */
  method RunChecks(log: SystemLog, clock: Clock, config: JsonDoc, secrets: JsonDoc, env: Environment)
    returns (results: map<string, string>)
    modifies log, clock
    ensures results == Checks(config, secrets, env)
    ensures log.lines == old(log.lines) + Stamped(clock.readings, old(clock.taken), CheckMessages(config, secrets, env))
    ensures clock.taken == old(clock.taken) + |CheckMessages(config, secrets, env)|
  {
    ghost var start, before, readings := clock.taken, log.lines, clock.readings;
    results := map[];
    var hyperhdr, esp32, hue := RunHttpChecks(log, clock, config, secrets, env);
    results := results["hyperhdr" := hyperhdr]["esp32" := esp32]["hue" := hue];
    ghost var t1 := clock.taken;
    var ssh := RunSshCheck(log, clock, env, config, secrets);
    results := results["ssh" := ssh];
    StampedExtend(readings, start, t1, before, HttpMessages(config, secrets, env), SshCheck(env, config, secrets).messages);
  }

  /** `check_all_connections`: load both files, run the four guarded blocks,
      log the summary; the returned dict and the lines logged are those the
      specification functions give. */
  method CheckAllConnections(log: SystemLog, clock: Clock, configFile: JsonFile, secretsFile: JsonFile, env: Environment)
    returns (results: map<string, string>)
    modifies log, clock
    ensures results == Round(configFile, secretsFile, env)
    ensures log.lines == old(log.lines) + Stamped(clock.readings, old(clock.taken), RoundMessages(configFile, secretsFile, env))
    ensures clock.taken == old(clock.taken) + |RoundMessages(configFile, secretsFile, env)|
  {
    ghost var start, before, readings := clock.taken, log.lines, clock.readings;
    ghost var first, second := LoadMessages("config.json", configFile), LoadMessages("secrets.json", secretsFile);
    var config := LoadJson(log, clock, "config.json", configFile);
    ghost var t1 := clock.taken;
    var secrets := LoadJson(log, clock, "secrets.json", secretsFile);
    ghost var t2 := clock.taken;
    results := RunChecks(log, clock, config, secrets, env);
    ghost var t3 := clock.taken;
    var summary := Summary(results);
    log.Log(clock, summary);
    ghost var third := CheckMessages(config, secrets, env);
    StampedOne(readings, t3, summary);
    StampedExtend(readings, start, t1, before, first, second);
    StampedExtend(readings, start, t2, before, first + second, third);
    StampedExtend(readings, start, t3, before, first + second + third, [summary]);
  }
}
