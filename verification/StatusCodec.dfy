/** The sensor status on its way from the service to the GUI: the service's builder and the
    GUI's parser are inverse on what the window shows. */
module StatusCodec {
  import opened Wrappers
  import opened JsonTree

  datatype ServiceState =
    Disconnected | Connecting | Idle | Starting | Recording | Stopping | Error

  function ToText(s: ServiceState): string {
    match s
    case Connecting => "CONNECTING"
    case Idle => "IDLE"
    case Starting => "STARTING"
    case Recording => "RECORDING"
    case Stopping => "STOPPING"
    case Error => "ERROR"
    case Disconnected => "DISCONNECTED"
  }

  /** The parsed state and whether the text was one; other texts read as Disconnected. */
  function TryParse(text: string): (ServiceState, bool) {
    if text == "DISCONNECTED" then (Disconnected, true)
    else if text == "CONNECTING" then (Connecting, true)
    else if text == "IDLE" then (Idle, true)
    else if text == "STARTING" then (Starting, true)
    else if text == "RECORDING" then (Recording, true)
    else if text == "STOPPING" then (Stopping, true)
    else if text == "ERROR" then (Error, true)
    else (Disconnected, false)
  }

  /** Parsing accepts exactly the printed states and inverts printing. */
  lemma StateText(s: ServiceState, text: string)
    ensures TryParse(ToText(s)) == (s, true)
    ensures TryParse(text).1 <==> ToText(TryParse(text).0) == text
  {
    assert "STARTING"[2] == 'A' && "STOPPING"[2] == 'O' && |"STARTING"| == |"STOPPING"| == 8;
    assert |"CONNECTING"| == 10 && |"DISCONNECTED"| == 12 && |"IDLE"| == 4 && |"ERROR"| == 5 && |"RECORDING"| == 9;
  }

  datatype StatusPayload = StatusPayload(
    linkAlive: bool, apiOk: bool, recordingActive: bool, state: ServiceState,
    lastError: string, lastErrorTs: int, sessionName: string)

  /** The service's builder: keyed assignments to a fresh dictionary. */
  method BuildStatusJson(p: StatusPayload) returns (root: map<string, Json>)
    ensures root == StatusFields(p)
  {
    root := map[];
    root := root["link_alive" := Bool(p.linkAlive)];
    root := root["api_ok" := Bool(p.apiOk)];
    root := root["recording_active" := Bool(p.recordingActive)];
    root := root["recording" := Bool(p.recordingActive)];
    root := root["state" := Str(ToText(p.state))];
    root := root["mode" := root["state"]];
    root := root["last_error" := Str(p.lastError)];
    root := root["last_error_ts" := Int(p.lastErrorTs)];
    root := root["session_name" := Str(p.sessionName)];
    root := root["sessionName" := Str(p.sessionName)];
  }

  function StatusFields(p: StatusPayload): map<string, Json> {
    map["link_alive" := Bool(p.linkAlive), "api_ok" := Bool(p.apiOk),
        "recording_active" := Bool(p.recordingActive), "recording" := Bool(p.recordingActive),
        "state" := Str(ToText(p.state)), "mode" := Str(ToText(p.state)),
        "last_error" := Str(p.lastError), "last_error_ts" := Int(p.lastErrorTs),
        "session_name" := Str(p.sessionName), "sessionName" := Str(p.sessionName)]
  }

  datatype EkinoxStatus = EkinoxStatus(
    state: string, mode: string, linkAlive: bool, recordingActive: bool,
    sessionName: string, lastError: string, ts: int)

  /** The GUI's parser, filling `before` field by field; `now` is its clock in seconds. */
  method ParseEkinoxStatusJson(payload: Option<Json>, before: EkinoxStatus, now: int)
    returns (ok: bool, out: EkinoxStatus)
    ensures ok <==> payload.Some? && payload.value.Obj?
    ensures !ok ==> out == before
    ensures ok ==> out == Parsed(payload.value.fields, before, now)
  {
    out := before;
    if payload.None? || !payload.value.Obj? { return false, out; }
    var obj := payload.value;
    out := out.(state := QtString(obj, "state", ""));
    out := out.(mode := QtString(obj, "mode", out.state));
    out := out.(linkAlive := QtBool(obj, "link_alive", QtBool(obj, "linkAlive", false)));
    if Has(obj, "recording_active") {
      out := out.(recordingActive := QtBool(obj, "recording_active", false));
    } else if Has(obj, "recording") {
      out := out.(recordingActive := QtBool(obj, "recording", false));
    }
    out := out.(sessionName := if Has(obj, "session_name") then QtString(obj, "session_name", "")
                               else QtString(obj, "sessionName", ""));
    out := out.(lastError := QtString(obj, "last_error", ""));
    var ts := At(obj, "ts");
    if IsNumeric(ts) {
      out := out.(ts := if ts.Int? then ts.i else Truncate(ts.r));
    } else {
      out := out.(ts := now);
    }
    ok := true;
  }

  function Parsed(fields: map<string, Json>, before: EkinoxStatus, now: int): EkinoxStatus {
    var obj := Obj(fields);
    var state, ts := QtString(obj, "state", ""), At(obj, "ts");
    EkinoxStatus(
      state, QtString(obj, "mode", state), QtBool(obj, "link_alive", QtBool(obj, "linkAlive", false)),
      if "recording_active" in fields then QtBool(obj, "recording_active", false)
      else if "recording" in fields then QtBool(obj, "recording", false) else before.recordingActive,
      QtString(obj, if "session_name" in fields then "session_name" else "sessionName", ""),
      QtString(obj, "last_error", ""),
      if ts.Int? then ts.i else if ts.Real? then Truncate(ts.r) else now)
  }

  /** What the parser makes of each field, by its names on the wire: the camel-case names count
      only where the others are missing (or, for the link, no boolean), an absent recording flag
      keeps what was there, and a missing or non-numeric time reads as now. */
  lemma ParserReads(j: Json, before: EkinoxStatus, now: int)
    requires j.Obj?
    ensures var out := Parsed(j.fields, before, now);
            && out.state == TextOr(At(j, "state"), "") && out.lastError == TextOr(At(j, "last_error"), "")
            && out.mode == TextOr(At(j, "mode"), out.state)
            && out.linkAlive == (if At(j, "link_alive").Bool? then At(j, "link_alive").b
                                 else At(j, "linkAlive") == Bool(true))
            && out.recordingActive == (if Has(j, "recording_active") then At(j, "recording_active") == Bool(true)
                                       else if Has(j, "recording") then At(j, "recording") == Bool(true)
                                       else before.recordingActive)
            && out.sessionName == TextOr(if Has(j, "session_name") then At(j, "session_name")
                                         else At(j, "sessionName"), "")
            && (At(j, "ts").Int? ==> out.ts == At(j, "ts").i)
            && (At(j, "ts").Real? && At(j, "ts").r >= 0.0 ==>
                  out.ts as real <= At(j, "ts").r < out.ts as real + 1.0)
            && (!IsNumeric(At(j, "ts")) ==> out.ts == now)
  {}

  /** The keys an older producer may leave out: "mode", and one of each duplicated pair. */
  predicate Droppable(drop: set<string>) {
    && drop <= {"mode", "recording", "recording_active", "session_name", "sessionName"}
    && !({"recording", "recording_active"} <= drop)
    && !({"session_name", "sessionName"} <= drop)
  }

  lemma DroppableKeeps(drop: set<string>)
    requires Droppable(drop)
    ensures "state" !in drop && "link_alive" !in drop && "last_error" !in drop
    ensures "recording" !in drop || "recording_active" !in drop
    ensures "session_name" !in drop || "sessionName" !in drop
  {
    assert |"state"| == 5 && |"last_error"| == 10 && |"link_alive"| == 10 && |"mode"| == 4;
    assert |"recording"| == 9 && |"recording_active"| == 16 && |"session_name"| == 12 && |"sessionName"| == 11;
  }

  /** Dropping keys leaves the others as they were. */
  lemma KeptField(fields: map<string, Json>, drop: set<string>, key: string)
    requires key in fields && key !in drop
    ensures Has(Obj(fields - drop), key) && At(Obj(fields - drop), key) == fields[key]
  {}

  /** Of a duplicated pair at least one survives. */
  lemma PairsSurvive(p: StatusPayload, drop: set<string>)
    requires Droppable(drop)
    ensures var fields := StatusFields(p) - drop;
            && (if "recording_active" in fields then QtBool(Obj(fields), "recording_active", false)
                else "recording" in fields && QtBool(Obj(fields), "recording", false)) == p.recordingActive
            && QtString(Obj(fields), if "session_name" in fields then "session_name" else "sessionName", "")
               == p.sessionName
  {
    DroppableKeeps(drop);
    var all := StatusFields(p);
    if "recording_active" !in drop {
      KeptField(all, drop, "recording_active");
    } else {
      KeptField(all, drop, "recording");
      assert "recording_active" !in all - drop && "recording" in all - drop;
    }
    KeptField(all, drop, if "session_name" !in drop then "session_name" else "sessionName");
  }

  /** Round trip: whatever droppable keys are missing, and whatever the parser started from,
      the GUI recovers link, recording, session, last error and a text that reads back as the
      service's state. */
  lemma StatusRoundTrip(p: StatusPayload, drop: set<string>, before: EkinoxStatus, now: int)
    requires Droppable(drop)
    ensures var out := Parsed(StatusFields(p) - drop, before, now);
            && out == EkinoxStatus(ToText(p.state), ToText(p.state), p.linkAlive, p.recordingActive,
                                   p.sessionName, p.lastError, now)
            && TryParse(out.state) == (p.state, true)
  {
    StateText(p.state, "");
    DroppableKeeps(drop);
    PairsSurvive(p, drop);
    var all := StatusFields(p);
    KeptField(all, drop, "state");
    KeptField(all, drop, "link_alive");
    KeptField(all, drop, "last_error");
    if "mode" !in drop { KeptField(all, drop, "mode"); }
    if "recording_active" in drop { KeptField(all, drop, "recording"); }
    assert "ts" !in all - drop;
  }

  /** A reader of every field by its name on the wire. */
  function StatusOf(j: Json): Option<StatusPayload> {
    if At(j, "link_alive").Bool? && At(j, "api_ok").Bool? && At(j, "recording_active").Bool?
       && At(j, "state").Str? && At(j, "last_error").Str? && At(j, "last_error_ts").Int?
       && At(j, "session_name").Str? && TryParse(At(j, "state").s).1
    then Some(StatusPayload(
      At(j, "link_alive").b, At(j, "api_ok").b, At(j, "recording_active").b,
      TryParse(At(j, "state").s).0,
      At(j, "last_error").s, At(j, "last_error_ts").i, At(j, "session_name").s))
    else None
  }

  /** The builder loses nothing: every field of the status can be read back under its name, and
      the duplicated names agree. */
  lemma StatusLosesNothing(p: StatusPayload)
    ensures var j := Obj(StatusFields(p));
            && StatusOf(j) == Some(p)
            && At(j, "recording") == At(j, "recording_active")
            && At(j, "sessionName") == At(j, "session_name")
            && At(j, "mode") == At(j, "state")
  {
    StateText(p.state, "");
    FieldsByName(p);
  }

  lemma FieldsByName(p: StatusPayload)
    ensures var f := StatusFields(p);
            && f["link_alive"] == Bool(p.linkAlive) && f["api_ok"] == Bool(p.apiOk)
            && f["recording_active"] == f["recording"] == Bool(p.recordingActive)
            && f["state"] == f["mode"] == Str(ToText(p.state))
            && f["last_error"] == Str(p.lastError) && f["last_error_ts"] == Int(p.lastErrorTs)
            && f["session_name"] == f["sessionName"] == Str(p.sessionName)
  {
    assert |"state"| == 5 && |"last_error"| == 10 && |"link_alive"| == 10 && |"mode"| == 4 && |"api_ok"| == 6;
    assert |"recording"| == 9 && |"recording_active"| == 16 && |"session_name"| == 12 && |"sessionName"| == 11;
    assert |"last_error_ts"| == 13;
  }

  /** The service's presence payload, and the flag the GUI reads from it. */
  function PresenceJson(online: bool, reason: string, ts: int): Json {
    Obj(map["state" := Str(if online then "online" else "offline"), "ts" := Int(ts), "reason" := Str(reason)])
  }

  predicate ReadsOnline(j: Json) { QtString(j, "state", "") == "online" }

  lemma PresenceRoundTrip(online: bool, reason: string, ts: int)
    ensures ReadsOnline(PresenceJson(online, reason, ts)) == online
  {
    assert |"online"| == 6 && |"offline"| == 7;
  }
}
