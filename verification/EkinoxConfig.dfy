/** Loading the service configuration from its JSON tree. */
module EkinoxConfig {
  import opened Wrappers
  import opened JsonTree
  import Decimal
  import RestPaths

  datatype MqttCfg = MqttCfg(
    host: string, port: int, droneId: string, username: string, password: string,
    tlsEnabled: bool, caFile: string)

  datatype NetCfg = NetCfg(ip: string, udpPort: int, udpLocalPort: int, restPort: int)

  datatype Timeouts = Timeouts(
    rxDeadMs: int, udpRxTimeoutMs: int, udpRxFailThreshold: int, udpRxOkToClearThreshold: int,
    startTimeoutMs: int, stopTimeoutMs: int, reconnectBackoffMs: int, reconnectBackoffMaxMs: int,
    presenceTimeoutMs: int)

  datatype RestApi = RestApi(basePath: string, dataloggerPath: string)

  datatype Config = Config(mqtt: MqttCfg, ekinox: NetCfg, timeouts: Timeouts, restApi: RestApi)

  const DEFAULT: Config := Config(
    MqttCfg("", 1883, "", "", "", false, ""),
    NetCfg("", 0, 0, 80),
    Timeouts(1500, 5000, 3, 2, 10000, 10000, 250, 2000, 5000),
    RestApi("/api/v1", "/dataLogger"))

  // The schema

  predicate Text(j: Json) { j.Str? && j.s != "" }

  function IntOf(j: Json): int
    requires IsInt(j)
  {
    if j.Int? then j.i else Truncate(j.r)
  }

  predicate PortOk(j: Json, min: int) { IsInt(j) && min <= IntOf(j) <= 65535 }

  predicate OptionalPort(j: Json, min: int) { j.Null? || PortOk(j, min) }

  predicate OptionalTimeout(j: Json) { j.Null? || (IsInt(j) && IntOf(j) > 0) }

  predicate MqttSchema(j: Json) {
    j.Obj? && Text(At(j, "host")) && PortOk(At(j, "port"), 1) && Text(At(j, "drone_id"))
  }

  predicate NetSchema(j: Json) {
    && j.Obj? && Text(At(j, "ip"))
    && OptionalPort(At(j, "udp_port"), 0) && OptionalPort(At(j, "udp_local_port"), 0)
    && OptionalPort(At(j, "rest_port"), 1)
  }

  /** A `timeouts` entry that is not an object is ignored. */
  predicate TimeoutsSchema(j: Json) {
    j.Obj? ==>
      && OptionalTimeout(At(j, "rx_dead_ms")) && OptionalTimeout(At(j, "udp_rx_timeout_ms"))
      && OptionalTimeout(At(j, "udp_rx_fail_threshold")) && OptionalTimeout(At(j, "udp_rx_ok_to_clear_threshold"))
      && OptionalTimeout(At(j, "start_timeout_ms")) && OptionalTimeout(At(j, "stop_timeout_ms"))
      && OptionalTimeout(At(j, "reconnect_backoff_ms")) && OptionalTimeout(At(j, "reconnect_backoff_max_ms"))
      && OptionalTimeout(At(j, "presence_timeout_ms"))
  }

  predicate RestSchema(j: Json) { j.Null? || j.Obj? }

  predicate Schema(root: Json) {
    && root.Obj?
    && MqttSchema(At(root, "mqtt")) && NetSchema(At(root, "ekinox"))
    && TimeoutsSchema(At(root, "timeouts")) && RestSchema(At(root, "rest_api"))
  }

  // The message of the first requirement that fails, in the order the loader meets them

  function Invalid(field: string): string { "invalid " + field }

  function MqttError(j: Json): (e: Option<string>)
    ensures e.None? <==> MqttSchema(j)
  {
    if !j.Obj? then Some("missing mqtt")
    else if !Text(At(j, "host")) then Some("missing mqtt.host")
    else if !PortOk(At(j, "port"), 1) then Some(Invalid("mqtt.port"))
    else if !Text(At(j, "drone_id")) then Some("missing mqtt.drone_id")
    else None
  }

  function NetError(j: Json): (e: Option<string>)
    ensures e.None? <==> NetSchema(j)
  {
    if !j.Obj? then Some("missing ekinox")
    else if !Text(At(j, "ip")) then Some("missing ekinox.ip")
    else if !OptionalPort(At(j, "udp_port"), 0) then Some(Invalid("ekinox.udp_port"))
    else if !OptionalPort(At(j, "udp_local_port"), 0) then Some(Invalid("ekinox.udp_local_port"))
    else if !OptionalPort(At(j, "rest_port"), 1) then Some(Invalid("ekinox.rest_port"))
    else None
  }

  /** The timeouts in the order the loader reads them. */
  const TIMEOUT_KEYS: seq<string> :=
    ["rx_dead_ms", "udp_rx_timeout_ms", "udp_rx_fail_threshold", "udp_rx_ok_to_clear_threshold",
     "start_timeout_ms", "stop_timeout_ms", "reconnect_backoff_ms", "reconnect_backoff_max_ms",
     "presence_timeout_ms"]

  /** How many timeouts are accepted before the first that is not. */
  function TimeoutsAccepted(j: Json): (n: nat)
    ensures n <= 9
    ensures n == 9 <==> TimeoutsSchema(j)
  {
    if !j.Obj? then 9
    else if !OptionalTimeout(At(j, "rx_dead_ms")) then 0
    else if !OptionalTimeout(At(j, "udp_rx_timeout_ms")) then 1
    else if !OptionalTimeout(At(j, "udp_rx_fail_threshold")) then 2
    else if !OptionalTimeout(At(j, "udp_rx_ok_to_clear_threshold")) then 3
    else if !OptionalTimeout(At(j, "start_timeout_ms")) then 4
    else if !OptionalTimeout(At(j, "stop_timeout_ms")) then 5
    else if !OptionalTimeout(At(j, "reconnect_backoff_ms")) then 6
    else if !OptionalTimeout(At(j, "reconnect_backoff_max_ms")) then 7
    else if !OptionalTimeout(At(j, "presence_timeout_ms")) then 8
    else 9
  }

  function TimeoutsError(j: Json): (e: Option<string>)
    ensures e.None? <==> TimeoutsSchema(j)
  {
    var n := TimeoutsAccepted(j);
    if n == 9 then None else Some(Invalid(TIMEOUT_KEYS[n]))
  }

  function SchemaError(root: Json): (e: Option<string>)
    ensures e.None? <==> Schema(root)
  {
    if !root.Obj? then Some("config root must be object")
    else if MqttError(At(root, "mqtt")).Some? then MqttError(At(root, "mqtt"))
    else if NetError(At(root, "ekinox")).Some? then NetError(At(root, "ekinox"))
    else if TimeoutsError(At(root, "timeouts")).Some? then TimeoutsError(At(root, "timeouts"))
    else if !RestSchema(At(root, "rest_api")) then Some("rest_api must be object")
    else None
  }

  // The configuration a valid tree denotes

  function NonEmptyOr(j: Json, default: string): string { if Text(j) then j.s else default }

  function BoolOr(j: Json, default: bool): bool { if j.Bool? then j.b else default }

  function IntOr(j: Json, default: int): int { if IsInt(j) then IntOf(j) else default }

  function MqttOf(j: Json): MqttCfg
    requires MqttSchema(j)
  {
    var auth, tls := At(j, "auth"), At(j, "tls");
    MqttCfg(At(j, "host").s, IntOf(At(j, "port")), At(j, "drone_id").s,
            TextOr(At(auth, "username"), ""), TextOr(At(auth, "password"), ""),
            BoolOr(At(tls, "enabled"), false), TextOr(At(tls, "ca_file"), ""))
  }

  function NetOf(j: Json): NetCfg
    requires NetSchema(j)
  {
    NetCfg(At(j, "ip").s, IntOr(At(j, "udp_port"), 0), IntOr(At(j, "udp_local_port"), 0),
           IntOr(At(j, "rest_port"), 80))
  }

  function TimeoutsOf(j: Json): Timeouts {
    var d := DEFAULT.timeouts;
    Timeouts(
      IntOr(At(j, "rx_dead_ms"), d.rxDeadMs), IntOr(At(j, "udp_rx_timeout_ms"), d.udpRxTimeoutMs),
      IntOr(At(j, "udp_rx_fail_threshold"), d.udpRxFailThreshold),
      IntOr(At(j, "udp_rx_ok_to_clear_threshold"), d.udpRxOkToClearThreshold),
      IntOr(At(j, "start_timeout_ms"), d.startTimeoutMs), IntOr(At(j, "stop_timeout_ms"), d.stopTimeoutMs),
      IntOr(At(j, "reconnect_backoff_ms"), d.reconnectBackoffMs),
      IntOr(At(j, "reconnect_backoff_max_ms"), d.reconnectBackoffMaxMs),
      IntOr(At(j, "presence_timeout_ms"), d.presenceTimeoutMs))
  }

  function RestOf(j: Json): RestApi {
    RestApi(NonEmptyOr(At(j, "base_path"), DEFAULT.restApi.basePath),
            NonEmptyOr(At(j, "datalogger_path"), DEFAULT.restApi.dataloggerPath))
  }

  function ConfigOf(root: Json): Config
    requires Schema(root)
  {
    Config(MqttOf(At(root, "mqtt")), NetOf(At(root, "ekinox")), TimeoutsOf(At(root, "timeouts")),
           RestOf(At(root, "rest_api")))
  }

  // What a load leaves behind: the fields read before the first unmet requirement hold the
  // tree's values, all others their defaults.

  function MqttLeft(j: Json): MqttCfg {
    var d := DEFAULT.mqtt;
    if !j.Obj? || !Text(At(j, "host")) then d
    else if !PortOk(At(j, "port"), 1) then d.(host := At(j, "host").s)
    else if !Text(At(j, "drone_id")) then d.(host := At(j, "host").s, port := IntOf(At(j, "port")))
    else MqttOf(j)
  }

  function NetLeft(j: Json): NetCfg {
    var d := DEFAULT.ekinox;
    if !j.Obj? || !Text(At(j, "ip")) then d
    else
      var udp := OptionalPort(At(j, "udp_port"), 0);
      var local := udp && OptionalPort(At(j, "udp_local_port"), 0);
      var rest := local && OptionalPort(At(j, "rest_port"), 1);
      NetCfg(At(j, "ip").s,
             if udp then IntOr(At(j, "udp_port"), 0) else 0,
             if local then IntOr(At(j, "udp_local_port"), 0) else 0,
             if rest then IntOr(At(j, "rest_port"), 80) else 80)
  }

  /** The k-th timeout: read if it comes before the first that is not accepted. */
  function TimeoutLeft(j: Json, k: nat, default: int): int
    requires k < 9
  {
    if k < TimeoutsAccepted(j) then IntOr(At(j, TIMEOUT_KEYS[k]), default) else default
  }

  function TimeoutsLeft(j: Json): Timeouts {
    var d := DEFAULT.timeouts;
    Timeouts(
      TimeoutLeft(j, 0, d.rxDeadMs), TimeoutLeft(j, 1, d.udpRxTimeoutMs),
      TimeoutLeft(j, 2, d.udpRxFailThreshold), TimeoutLeft(j, 3, d.udpRxOkToClearThreshold),
      TimeoutLeft(j, 4, d.startTimeoutMs), TimeoutLeft(j, 5, d.stopTimeoutMs),
      TimeoutLeft(j, 6, d.reconnectBackoffMs), TimeoutLeft(j, 7, d.reconnectBackoffMaxMs),
      TimeoutLeft(j, 8, d.presenceTimeoutMs))
  }

  function LeftBy(root: Json): Config {
    var mqtt := At(root, "mqtt");
    var net := At(root, "ekinox");
    var times := At(root, "timeouts");
    Config(
      MqttLeft(mqtt),
      if MqttSchema(mqtt) then NetLeft(net) else DEFAULT.ekinox,
      if MqttSchema(mqtt) && NetSchema(net) then TimeoutsLeft(times) else DEFAULT.timeouts,
      if MqttSchema(mqtt) && NetSchema(net) && TimeoutsSchema(times) then RestOf(At(root, "rest_api"))
      else DEFAULT.restApi)
  }

  /** On a tree that meets the schema nothing is held back. */
  lemma LeftIsLoaded(root: Json)
    requires Schema(root)
    ensures LeftBy(root) == ConfigOf(root)
  {}

  // The loader

  method ValidatePort(value: Json, field: string, allowZero: bool) returns (ok: bool, err: string, out: int)
    ensures ok <==> PortOk(value, if allowZero then 0 else 1)
    ensures ok ==> err == "" && out == IntOf(value)
    ensures !ok ==> err == Invalid(field)
  {
    out, err := 0, Invalid(field);
    if !IsInt(value) { return false, err, 0; }
    var port := IntOf(value);
    var minPort := if allowZero then 0 else 1;
    if port < minPort || port > 65535 { return false, err, 0; }
    return true, "", port;
  }

  method ValidatePositiveTimeout(value: Json, field: string) returns (ok: bool, err: string, out: int)
    ensures ok <==> IsInt(value) && IntOf(value) > 0
    ensures ok ==> err == "" && out == IntOf(value)
    ensures !ok ==> err == Invalid(field)
  {
    out, err := 0, Invalid(field);
    if !IsInt(value) { return false, err, 0; }
    var val := IntOf(value);
    if val <= 0 { return false, err, 0; }
    return true, "", val;
  }

  /** One optional timeout: an absent one keeps the current value. */
  method ReadTimeout(timeouts: Json, field: string, current: int) returns (ok: bool, err: string, out: int)
    ensures ok <==> OptionalTimeout(At(timeouts, field))
    ensures ok ==> err == "" && out == IntOr(At(timeouts, field), current)
    ensures !ok ==> err == Invalid(field)
  {
    var value := At(timeouts, field);
    if value.Null? { return true, "", current; }
    ok, err, out := ValidatePositiveTimeout(value, field);
  }

  class EkinoxConfig {
    var mqtt: MqttCfg
    var ekinox: NetCfg
    var timeouts: Timeouts
    var restApi: RestApi

    function View(): Config
      reads this
    {
      Config(mqtt, ekinox, timeouts, restApi)
    }

    constructor ()
      ensures View() == DEFAULT
    {
      mqtt, ekinox, timeouts, restApi := DEFAULT.mqtt, DEFAULT.ekinox, DEFAULT.timeouts, DEFAULT.restApi;
    }

    /** `parsed` is the file's JSON, `None` if it did not parse with `parseErrors`. Success is
        exactly the schema, and the result then depends on the tree and the defaults alone. */
    method Load(parsed: Option<Json>, parseErrors: string) returns (ok: bool, err: string)
      modifies this
      ensures ok <==> parsed.Some? && Schema(parsed.value)
      ensures ok ==> err == "" && View() == ConfigOf(parsed.value)
      ensures parsed.Some? && parsed.value.Obj? ==> View() == LeftBy(parsed.value)
      ensures parsed.None? ==> err == parseErrors
      ensures parsed.Some? && !ok ==> Some(err) == SchemaError(parsed.value)
      ensures parsed.None? || !parsed.value.Obj? ==> View() == old(View())
    {
      if parsed.None? { return false, parseErrors; }
      var root := parsed.value;
      if !root.Obj? { return false, "config root must be object"; }
      mqtt, ekinox, timeouts, restApi := DEFAULT.mqtt, DEFAULT.ekinox, DEFAULT.timeouts, DEFAULT.restApi;
      ok, err := LoadMqtt(At(root, "mqtt"));
      if !ok { return; }
      ok, err := LoadNet(At(root, "ekinox"));
      if !ok { return; }
      if At(root, "timeouts").Obj? {
        ok, err := LoadTimeouts(At(root, "timeouts"));
        if !ok { return; }
      }
      ok, err := LoadRest(At(root, "rest_api"));
      if ok { LeftIsLoaded(root); }
    }

    method LoadMqtt(j: Json) returns (ok: bool, err: string)
      requires mqtt == DEFAULT.mqtt
      modifies this`mqtt
      ensures ok <==> MqttSchema(j)
      ensures mqtt == MqttLeft(j) && (ok ==> err == "")
      ensures !ok ==> Some(err) == MqttError(j)
    {
      err := "";
      if !j.Obj? { return false, "missing mqtt"; }
      var host := At(j, "host");
      if !host.Str? || host.s == "" { return false, "missing mqtt.host"; }
      mqtt := mqtt.(host := host.s);
      var port;
      ok, err, port := ValidatePort(At(j, "port"), "mqtt.port", false);
      if !ok { return; }
      mqtt := mqtt.(port := port);
      var drone := At(j, "drone_id");
      if !drone.Str? || drone.s == "" { return false, "missing mqtt.drone_id"; }
      mqtt := mqtt.(droneId := drone.s);
      var auth := At(j, "auth");
      if auth.Obj? {
        if At(auth, "username").Str? { mqtt := mqtt.(username := At(auth, "username").s); }
        if At(auth, "password").Str? { mqtt := mqtt.(password := At(auth, "password").s); }
      }
      var tls := At(j, "tls");
      if tls.Obj? {
        if At(tls, "enabled").Bool? { mqtt := mqtt.(tlsEnabled := At(tls, "enabled").b); }
        if At(tls, "ca_file").Str? { mqtt := mqtt.(caFile := At(tls, "ca_file").s); }
      }
    }

    method LoadNet(j: Json) returns (ok: bool, err: string)
      requires ekinox == DEFAULT.ekinox
      modifies this`ekinox
      ensures ok <==> NetSchema(j)
      ensures ekinox == NetLeft(j) && (ok ==> err == "")
      ensures !ok ==> Some(err) == NetError(j)
    {
      err := "";
      if !j.Obj? { return false, "missing ekinox"; }
      var ip := At(j, "ip");
      if !ip.Str? || ip.s == "" { return false, "missing ekinox.ip"; }
      ekinox := ekinox.(ip := ip.s);
      var port;
      ok := true;
      if !At(j, "udp_port").Null? {
        ok, err, port := ValidatePort(At(j, "udp_port"), "ekinox.udp_port", true);
        if !ok { return; }
        ekinox := ekinox.(udpPort := port);
      }
      if !At(j, "udp_local_port").Null? {
        ok, err, port := ValidatePort(At(j, "udp_local_port"), "ekinox.udp_local_port", true);
        if !ok { return; }
        ekinox := ekinox.(udpLocalPort := port);
      }
      if !At(j, "rest_port").Null? {
        ok, err, port := ValidatePort(At(j, "rest_port"), "ekinox.rest_port", false);
        if !ok { return; }
        ekinox := ekinox.(restPort := port);
      }
    }

    method LoadTimeouts(j: Json) returns (ok: bool, err: string)
      requires timeouts == DEFAULT.timeouts && j.Obj?
      modifies this`timeouts
      ensures ok <==> TimeoutsSchema(j)
      ensures timeouts == TimeoutsLeft(j) && (ok ==> err == "")
      ensures !ok ==> Some(err) == TimeoutsError(j)
    {
      var v;
      ok, err, v := ReadTimeout(j, "rx_dead_ms", timeouts.rxDeadMs);
      if !ok { return; }
      timeouts := timeouts.(rxDeadMs := v);
      ok, err, v := ReadTimeout(j, "udp_rx_timeout_ms", timeouts.udpRxTimeoutMs);
      if !ok { return; }
      timeouts := timeouts.(udpRxTimeoutMs := v);
      ok, err, v := ReadTimeout(j, "udp_rx_fail_threshold", timeouts.udpRxFailThreshold);
      if !ok { return; }
      timeouts := timeouts.(udpRxFailThreshold := v);
      ok, err, v := ReadTimeout(j, "udp_rx_ok_to_clear_threshold", timeouts.udpRxOkToClearThreshold);
      if !ok { return; }
      timeouts := timeouts.(udpRxOkToClearThreshold := v);
      ok, err, v := ReadTimeout(j, "start_timeout_ms", timeouts.startTimeoutMs);
      if !ok { return; }
      timeouts := timeouts.(startTimeoutMs := v);
      ok, err, v := ReadTimeout(j, "stop_timeout_ms", timeouts.stopTimeoutMs);
      if !ok { return; }
      timeouts := timeouts.(stopTimeoutMs := v);
      ok, err, v := ReadTimeout(j, "reconnect_backoff_ms", timeouts.reconnectBackoffMs);
      if !ok { return; }
      timeouts := timeouts.(reconnectBackoffMs := v);
      ok, err, v := ReadTimeout(j, "reconnect_backoff_max_ms", timeouts.reconnectBackoffMaxMs);
      if !ok { return; }
      timeouts := timeouts.(reconnectBackoffMaxMs := v);
      ok, err, v := ReadTimeout(j, "presence_timeout_ms", timeouts.presenceTimeoutMs);
      if !ok { return; }
      timeouts := timeouts.(presenceTimeoutMs := v);
    }

    method LoadRest(j: Json) returns (ok: bool, err: string)
      requires restApi == DEFAULT.restApi
      modifies this`restApi
      ensures ok <==> RestSchema(j)
      ensures restApi == RestOf(j) && (ok ==> err == "")
      ensures !ok ==> err == "rest_api must be object"
    {
      if !j.Null? && !j.Obj? { return false, "rest_api must be object"; }
      ok, err := true, "";
      if j.Obj? {
        var basePath := At(j, "base_path");
        if basePath.Str? && basePath.s != "" { restApi := restApi.(basePath := basePath.s); }
        var dataloggerPath := At(j, "datalogger_path");
        if dataloggerPath.Str? && dataloggerPath.s != "" { restApi := restApi.(dataloggerPath := dataloggerPath.s); }
      }
    }
  }

  // What a loaded configuration guarantees to the REST client

  /** The REST client's own check of its target; `Some` is the error it reports. */
  function ValidateRestTarget(cfg: Config): Option<string> {
    if cfg.ekinox.ip == "" then Some("missing ekinox.ip")
    else if cfg.ekinox.restPort <= 0 then Some("missing ekinox.rest_port")
    else None
  }

  function BuildBaseUrl(cfg: Config): string {
    if ValidateRestTarget(cfg).Some? then ""
    else RestPaths.BuildUrl(cfg.ekinox.ip, Decimal.NatText(if cfg.ekinox.restPort > 0 then cfg.ekinox.restPort else 0),
                            RestPaths.Paths(cfg.restApi.basePath, cfg.restApi.dataloggerPath).base)
  }

  /** The check refuses exactly a missing address or port, by name, and only then is there no
      URL. */
  lemma TargetErrors(cfg: Config)
    ensures ValidateRestTarget(cfg).None? <==> cfg.ekinox.ip != "" && cfg.ekinox.restPort > 0
    ensures cfg.ekinox.ip == "" ==> ValidateRestTarget(cfg) == Some("missing ekinox.ip")
    ensures cfg.ekinox.ip != "" && cfg.ekinox.restPort <= 0 ==>
              ValidateRestTarget(cfg) == Some("missing ekinox.rest_port")
    ensures BuildBaseUrl(cfg) == "" <==> ValidateRestTarget(cfg).Some?
  {
    if ValidateRestTarget(cfg).None? { assert BuildBaseUrl(cfg)[0] == 'h'; }
  }

  predicate ValidPort(port: int, min: int) { min <= port <= 65535 }

  /** Every loaded configuration has usable numbers and texts, passes the REST client's
      check, and so always yields a base URL. */
  lemma LoadedIsUsable(root: Json)
    requires Schema(root)
    ensures var cfg := ConfigOf(root);
            && cfg.mqtt.host != "" && cfg.mqtt.droneId != "" && ValidPort(cfg.mqtt.port, 1)
            && ValidPort(cfg.ekinox.udpPort, 0) && ValidPort(cfg.ekinox.udpLocalPort, 0)
            && cfg.restApi.basePath != "" && cfg.restApi.dataloggerPath != ""
            && ValidateRestTarget(cfg) == None
            && BuildBaseUrl(cfg) == "http://" + cfg.ekinox.ip + ":" + Decimal.NatText(cfg.ekinox.restPort)
                                    + RestPaths.Join(cfg.restApi.basePath, cfg.restApi.dataloggerPath)
            && BuildBaseUrl(cfg) != ""
  {
    var cfg := ConfigOf(root);
    RestPaths.DistinctEndpoints(cfg.restApi.basePath, cfg.restApi.dataloggerPath, cfg.ekinox.ip,
                                Decimal.NatText(cfg.ekinox.restPort));
  }

  lemma LoadedTimeoutsPositive(root: Json)
    requires Schema(root)
    ensures var t := ConfigOf(root).timeouts;
            && t.rxDeadMs > 0 && t.udpRxTimeoutMs > 0 && t.udpRxFailThreshold > 0
            && t.udpRxOkToClearThreshold > 0 && t.startTimeoutMs > 0 && t.stopTimeoutMs > 0
            && t.reconnectBackoffMs > 0 && t.reconnectBackoffMaxMs > 0 && t.presenceTimeoutMs > 0
  {}

  // The names on the wire

  /** What a configuration file may say. */
  predicate Usable(cfg: Config) {
    && UsableMqtt(cfg.mqtt) && UsableNet(cfg.ekinox) && UsableTimeouts(cfg.timeouts)
    && cfg.restApi.basePath != "" && cfg.restApi.dataloggerPath != ""
  }

  predicate UsableMqtt(c: MqttCfg) { c.host != "" && 1 <= c.port <= 65535 && c.droneId != "" }

  predicate UsableNet(c: NetCfg) {
    && c.ip != "" && 0 <= c.udpPort <= 65535 && 0 <= c.udpLocalPort <= 65535 && 1 <= c.restPort <= 65535
  }

  predicate UsableTimeouts(t: Timeouts) {
    && PositiveInt(t.rxDeadMs) && PositiveInt(t.udpRxTimeoutMs)
    && PositiveInt(t.udpRxFailThreshold) && PositiveInt(t.udpRxOkToClearThreshold)
    && PositiveInt(t.startTimeoutMs) && PositiveInt(t.stopTimeoutMs)
    && PositiveInt(t.reconnectBackoffMs) && PositiveInt(t.reconnectBackoffMaxMs)
    && PositiveInt(t.presenceTimeoutMs)
  }

  predicate PositiveInt(i: int) { 0 < i <= 2147483647 }

  predicate SaysMqtt(j: Json, c: MqttCfg) {
    && j.Obj?
    && At(j, "host") == Str(c.host) && At(j, "port") == Int(c.port) && At(j, "drone_id") == Str(c.droneId)
    && At(At(j, "auth"), "username") == Str(c.username) && At(At(j, "auth"), "password") == Str(c.password)
    && At(At(j, "tls"), "enabled") == Bool(c.tlsEnabled) && At(At(j, "tls"), "ca_file") == Str(c.caFile)
  }

  predicate SaysNet(j: Json, c: NetCfg) {
    && j.Obj?
    && At(j, "ip") == Str(c.ip) && At(j, "udp_port") == Int(c.udpPort)
    && At(j, "udp_local_port") == Int(c.udpLocalPort) && At(j, "rest_port") == Int(c.restPort)
  }

  predicate SaysTimeouts(j: Json, t: Timeouts) {
    && j.Obj?
    && At(j, "rx_dead_ms") == Int(t.rxDeadMs)
    && At(j, "udp_rx_timeout_ms") == Int(t.udpRxTimeoutMs)
    && At(j, "udp_rx_fail_threshold") == Int(t.udpRxFailThreshold)
    && At(j, "udp_rx_ok_to_clear_threshold") == Int(t.udpRxOkToClearThreshold)
    && At(j, "start_timeout_ms") == Int(t.startTimeoutMs)
    && At(j, "stop_timeout_ms") == Int(t.stopTimeoutMs)
    && At(j, "reconnect_backoff_ms") == Int(t.reconnectBackoffMs)
    && At(j, "reconnect_backoff_max_ms") == Int(t.reconnectBackoffMaxMs)
    && At(j, "presence_timeout_ms") == Int(t.presenceTimeoutMs)
  }

  predicate SaysRest(j: Json, r: RestApi) {
    j.Obj? && At(j, "base_path") == Str(r.basePath) && At(j, "datalogger_path") == Str(r.dataloggerPath)
  }

  /** A tree that states a configuration, each value under its own name, whatever else it holds. */
  predicate Says(root: Json, cfg: Config) {
    && root.Obj?
    && SaysMqtt(At(root, "mqtt"), cfg.mqtt) && SaysNet(At(root, "ekinox"), cfg.ekinox)
    && SaysTimeouts(At(root, "timeouts"), cfg.timeouts) && SaysRest(At(root, "rest_api"), cfg.restApi)
  }

  lemma MqttLoads(j: Json, c: MqttCfg)
    requires SaysMqtt(j, c) && UsableMqtt(c)
    ensures MqttSchema(j) && MqttOf(j) == c
  {}

  lemma NetLoads(j: Json, c: NetCfg)
    requires SaysNet(j, c) && UsableNet(c)
    ensures NetSchema(j) && NetOf(j) == c
  {}

  lemma TimeoutsLoad(j: Json, t: Timeouts)
    requires SaysTimeouts(j, t) && UsableTimeouts(t)
    ensures TimeoutsSchema(j) && TimeoutsOf(j) == t
  {}

  /** Round trip: a tree that states a usable configuration loads as that configuration. */
  lemma LoadsWhatItSays(root: Json, cfg: Config)
    requires Says(root, cfg) && Usable(cfg)
    ensures Schema(root) && ConfigOf(root) == cfg
  {
    MqttLoads(At(root, "mqtt"), cfg.mqtt);
    NetLoads(At(root, "ekinox"), cfg.ekinox);
    TimeoutsLoad(At(root, "timeouts"), cfg.timeouts);
  }

  lemma TimeoutsUsable(j: Json)
    requires TimeoutsSchema(j)
    ensures UsableTimeouts(TimeoutsOf(j))
  {}

  /** And nothing else loads: every loaded configuration is usable. */
  lemma OnlyUsableLoads(root: Json)
    requires Schema(root)
    ensures Usable(ConfigOf(root))
  {
    TimeoutsUsable(At(root, "timeouts"));
  }

  // Such a tree exists for every configuration

  function MqttTree(c: MqttCfg): Json {
    Obj(map["host" := Str(c.host), "port" := Int(c.port), "drone_id" := Str(c.droneId),
            "auth" := Obj(map["username" := Str(c.username), "password" := Str(c.password)]),
            "tls" := Obj(map["enabled" := Bool(c.tlsEnabled), "ca_file" := Str(c.caFile)])])
  }

  function NetTree(c: NetCfg): Json {
    Obj(map["ip" := Str(c.ip), "udp_port" := Int(c.udpPort), "udp_local_port" := Int(c.udpLocalPort),
            "rest_port" := Int(c.restPort)])
  }

  function TimeoutsTree(t: Timeouts): Json {
    Obj(map["rx_dead_ms" := Int(t.rxDeadMs), "udp_rx_timeout_ms" := Int(t.udpRxTimeoutMs),
            "udp_rx_fail_threshold" := Int(t.udpRxFailThreshold),
            "udp_rx_ok_to_clear_threshold" := Int(t.udpRxOkToClearThreshold),
            "start_timeout_ms" := Int(t.startTimeoutMs), "stop_timeout_ms" := Int(t.stopTimeoutMs),
            "reconnect_backoff_ms" := Int(t.reconnectBackoffMs),
            "reconnect_backoff_max_ms" := Int(t.reconnectBackoffMaxMs),
            "presence_timeout_ms" := Int(t.presenceTimeoutMs)])
  }

  function RestTree(r: RestApi): Json {
    Obj(map["base_path" := Str(r.basePath), "datalogger_path" := Str(r.dataloggerPath)])
  }

  function Root(mqtt: Json, net: Json, times: Json, rest: Json): Json {
    Obj(map["mqtt" := mqtt, "ekinox" := net, "timeouts" := times, "rest_api" := rest])
  }

  function Tree(cfg: Config): Json {
    Root(MqttTree(cfg.mqtt), NetTree(cfg.ekinox), TimeoutsTree(cfg.timeouts), RestTree(cfg.restApi))
  }

  lemma MqttTreeSays(c: MqttCfg)
    ensures SaysMqtt(MqttTree(c), c)
  {
    assert |"host"| == 4 && |"port"| == 4 && "host"[0] == 'h' && "port"[0] == 'p' && "auth"[0] == 'a';
    assert "username"[0] == 'u' && "password"[0] == 'p' && "enabled"[0] == 'e' && "ca_file"[0] == 'c';
  }

  lemma NetTreeSays(c: NetCfg)
    ensures SaysNet(NetTree(c), c)
  {
    assert |"ip"| == 2 && |"udp_port"| == 8 && |"udp_local_port"| == 14 && |"rest_port"| == 9;
  }

  /** The nine names differ in length. */
  lemma TimeoutNamesDiffer()
    ensures |"rx_dead_ms"| == 10 && |"stop_timeout_ms"| == 15 && |"start_timeout_ms"| == 16
    ensures |"udp_rx_timeout_ms"| == 17 && |"presence_timeout_ms"| == 19 && |"reconnect_backoff_ms"| == 20
    ensures |"udp_rx_fail_threshold"| == 21 && |"reconnect_backoff_max_ms"| == 24
    ensures |"udp_rx_ok_to_clear_threshold"| == 28
  {}

  lemma UdpTimeoutsSay(t: Timeouts)
    ensures var j := TimeoutsTree(t);
            && At(j, "rx_dead_ms") == Int(t.rxDeadMs) && At(j, "udp_rx_timeout_ms") == Int(t.udpRxTimeoutMs)
            && At(j, "udp_rx_fail_threshold") == Int(t.udpRxFailThreshold)
  {
    TimeoutNamesDiffer();
  }

  lemma CommandTimeoutsSay(t: Timeouts)
    ensures var j := TimeoutsTree(t);
            && At(j, "udp_rx_ok_to_clear_threshold") == Int(t.udpRxOkToClearThreshold)
            && At(j, "start_timeout_ms") == Int(t.startTimeoutMs) && At(j, "stop_timeout_ms") == Int(t.stopTimeoutMs)
  {
    TimeoutNamesDiffer();
  }

  lemma BackoffTimeoutsSay(t: Timeouts)
    ensures var j := TimeoutsTree(t);
            && At(j, "reconnect_backoff_ms") == Int(t.reconnectBackoffMs)
            && At(j, "reconnect_backoff_max_ms") == Int(t.reconnectBackoffMaxMs)
            && At(j, "presence_timeout_ms") == Int(t.presenceTimeoutMs)
  {
    TimeoutNamesDiffer();
  }

  lemma TimeoutsTreeSays(t: Timeouts)
    ensures SaysTimeouts(TimeoutsTree(t), t)
  {
    UdpTimeoutsSay(t);
    CommandTimeoutsSay(t);
    BackoffTimeoutsSay(t);
  }

  lemma RootHolds(mqtt: Json, net: Json, times: Json, rest: Json)
    ensures var root := Root(mqtt, net, times, rest);
            At(root, "mqtt") == mqtt && At(root, "ekinox") == net && At(root, "timeouts") == times
            && At(root, "rest_api") == rest
  {
    assert |"mqtt"| == 4 && |"ekinox"| == 6 && |"timeouts"| == 8 && |"rest_api"| == 8;
    assert "timeouts"[0] == 't' && "rest_api"[0] == 'r';
  }

  lemma RestTreeSays(r: RestApi)
    ensures SaysRest(RestTree(r), r)
  {
    assert |"base_path"| == 9 && |"datalogger_path"| == 15;
  }

  lemma TreeSays(cfg: Config)
    ensures Says(Tree(cfg), cfg)
  {
    MqttTreeSays(cfg.mqtt);
    NetTreeSays(cfg.ekinox);
    TimeoutsTreeSays(cfg.timeouts);
    RestTreeSays(cfg.restApi);
    RootSays(cfg, MqttTree(cfg.mqtt), NetTree(cfg.ekinox), TimeoutsTree(cfg.timeouts), RestTree(cfg.restApi));
  }

  lemma RootSays(cfg: Config, mqtt: Json, net: Json, times: Json, rest: Json)
    requires SaysMqtt(mqtt, cfg.mqtt) && SaysNet(net, cfg.ekinox)
    requires SaysTimeouts(times, cfg.timeouts) && SaysRest(rest, cfg.restApi)
    ensures Says(Root(mqtt, net, times, rest), cfg)
  {
    RootHolds(mqtt, net, times, rest);
  }

  /** The configurations that some file loads as are exactly the usable ones. */
  lemma LoadableIsUsable(cfg: Config)
    ensures Usable(cfg) <==> exists root :: Schema(root) && ConfigOf(root) == cfg
  {
    if Usable(cfg) {
      TreeSays(cfg);
      LoadsWhatItSays(Tree(cfg), cfg);
      assert Schema(Tree(cfg)) && ConfigOf(Tree(cfg)) == cfg;
    }
    forall root | Schema(root) && ConfigOf(root) == cfg ensures Usable(cfg) { OnlyUsableLoads(root); }
  }

  /** A file that gives only what it must gets the documented defaults for the rest. */
  lemma RequiredKeysSuffice(root: Json, host: string, port: int, droneId: string, ip: string)
    requires root.Obj? && At(root, "mqtt").Obj? && At(root, "ekinox").Obj?
    requires !At(root, "timeouts").Obj? && At(root, "rest_api").Null?
    requires var m := At(root, "mqtt");
             && At(m, "host") == Str(host) && At(m, "port") == Int(port) && At(m, "drone_id") == Str(droneId)
             && At(m, "auth").Null? && At(m, "tls").Null?
    requires var n := At(root, "ekinox");
             && At(n, "ip") == Str(ip) && At(n, "udp_port").Null? && At(n, "udp_local_port").Null?
             && At(n, "rest_port").Null?
    requires host != "" && 1 <= port <= 65535 && droneId != "" && ip != ""
    ensures Schema(root)
    ensures ConfigOf(root) == Config(
      MqttCfg(host, port, droneId, "", "", false, ""),
      NetCfg(ip, 0, 0, 80),
      Timeouts(1500, 5000, 3, 2, 10000, 10000, 250, 2000, 5000),
      RestApi("/api/v1", "/dataLogger"))
  {}

  /** The base URL on the texts of the file. */
  lemma BaseUrlOfTree(root: Json, ip: string, port: int, basePath: string, dataloggerPath: string)
    requires Schema(root)
    requires At(At(root, "ekinox"), "ip") == Str(ip) && At(At(root, "ekinox"), "rest_port") == Int(port)
    requires At(At(root, "rest_api"), "base_path") == Str(basePath) && basePath != ""
    requires At(At(root, "rest_api"), "datalogger_path") == Str(dataloggerPath) && dataloggerPath != ""
    ensures BuildBaseUrl(ConfigOf(root)) == "http://" + ip + ":" + Decimal.NatText(port)
                                            + RestPaths.Join(basePath, dataloggerPath)
  {
    LoadedIsUsable(root);
  }

  // The name in an error

  /** A file that states a configuration whose one bad value is a timeout is refused with the
      name of that timeout. */
  lemma BadTimeoutNamed(root: Json, key: string)
    requires root.Obj? && MqttSchema(At(root, "mqtt")) && NetSchema(At(root, "ekinox"))
    requires At(root, "timeouts").Obj? && key in TIMEOUT_KEYS && !OptionalTimeout(At(At(root, "timeouts"), key))
    requires forall other :: other in TIMEOUT_KEYS && other != key ==> OptionalTimeout(At(At(root, "timeouts"), other))
    ensures SchemaError(root) == Some("invalid " + key)
  {
    var j := At(root, "timeouts");
    var n := TimeoutsAccepted(j);
    TimeoutKeysAre();
    assert n < 9 && TIMEOUT_KEYS[n] in TIMEOUT_KEYS;
    assert !OptionalTimeout(At(j, TIMEOUT_KEYS[n]));
  }

  lemma TimeoutKeysAre()
    ensures TIMEOUT_KEYS[0] == "rx_dead_ms" && TIMEOUT_KEYS[1] == "udp_rx_timeout_ms"
    ensures TIMEOUT_KEYS[2] == "udp_rx_fail_threshold" && TIMEOUT_KEYS[3] == "udp_rx_ok_to_clear_threshold"
    ensures TIMEOUT_KEYS[4] == "start_timeout_ms" && TIMEOUT_KEYS[5] == "stop_timeout_ms"
    ensures TIMEOUT_KEYS[6] == "reconnect_backoff_ms" && TIMEOUT_KEYS[7] == "reconnect_backoff_max_ms"
    ensures TIMEOUT_KEYS[8] == "presence_timeout_ms" && |TIMEOUT_KEYS| == 9
  {}

  /** What each refusal of the two required sections reports, on the first unmet requirement. */
  lemma RequiredNamed(root: Json)
    requires root.Obj?
    ensures var m, n := At(root, "mqtt"), At(root, "ekinox");
            var portBad := !PortOk(At(m, "port"), 1);
            && (!m.Obj? ==> SchemaError(root) == Some("missing mqtt"))
            && (m.Obj? && !Text(At(m, "host")) ==> SchemaError(root) == Some("missing mqtt.host"))
            && (m.Obj? && Text(At(m, "host")) && portBad ==> SchemaError(root) == Some("invalid " + "mqtt.port"))
            && (m.Obj? && Text(At(m, "host")) && !portBad && !Text(At(m, "drone_id")) ==>
                  SchemaError(root) == Some("missing mqtt.drone_id"))
            && (MqttSchema(m) && !n.Obj? ==> SchemaError(root) == Some("missing ekinox"))
            && (MqttSchema(m) && n.Obj? && !Text(At(n, "ip")) ==> SchemaError(root) == Some("missing ekinox.ip"))
  {}

  /** And of the sensor section's ports and the REST section. */
  lemma OptionalNamed(root: Json)
    requires root.Obj? && MqttSchema(At(root, "mqtt"))
    requires At(root, "ekinox").Obj? && Text(At(At(root, "ekinox"), "ip"))
    ensures var n := At(root, "ekinox");
            var udp, local := OptionalPort(At(n, "udp_port"), 0), OptionalPort(At(n, "udp_local_port"), 0);
            && (!udp ==> SchemaError(root) == Some("invalid " + "ekinox.udp_port"))
            && (udp && !local ==> SchemaError(root) == Some("invalid " + "ekinox.udp_local_port"))
            && (udp && local && !OptionalPort(At(n, "rest_port"), 1) ==>
                  SchemaError(root) == Some("invalid " + "ekinox.rest_port"))
            && (NetSchema(n) && TimeoutsSchema(At(root, "timeouts"))
                && !At(root, "rest_api").Null? && !At(root, "rest_api").Obj? ==>
                  SchemaError(root) == Some("rest_api must be object"))
  {}
}
