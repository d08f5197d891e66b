/** How the service decides from a device reply whether the logger is recording. */
module RecordingInference {
  import opened Wrappers
  import opened JsonTree

  // The declarative rule

  predicate SaysStatus(j: Json) { At(j, "status").Str? }

  /** The status text in force: the reply's, or what the result held before. */
  function StatusText(j: Json, prior: string): string {
    if SaysStatus(j) then At(j, "status").s else prior
  }

  /** A named session counts unless the status is "ready". */
  predicate SaysSession(j: Json, prior: string) {
    At(j, "sessionName").Str? && At(j, "sessionName").s != "" && StatusText(j, prior) != "ready"
  }

  predicate SaysSpeed(j: Json) { IsNumeric(At(j, "writeSpeed")) }

  predicate Evidence(j: Json, prior: string) { SaysStatus(j) || SaysSession(j, prior) || SaysSpeed(j) }

  /** The write speed does not fit an int: the JSON library raises an exception. */
  predicate SpeedOverflows(j: Json) { SaysSpeed(j) && AsInt(At(j, "writeSpeed")).None? }

  predicate EvidenceOfRecording(j: Json, prior: string) {
    || (SaysStatus(j) && At(j, "status").s == "recording")
    || SaysSession(j, prior)
    || (SaysSpeed(j) && !SpeedOverflows(j) && AsInt(At(j, "writeSpeed")).value > 0)
  }

  const FLAG_KEYS: seq<string> := ["recording", "isRecording", "recording_active", "active"]

  /** The first of the keys that holds a boolean. */
  function FirstBool(j: Json, keys: seq<string>): Option<bool> {
    if keys == [] then None
    else if At(j, keys[0]).Bool? then Some(At(j, keys[0]).b)
    else FirstBool(j, keys[1..])
  }

  /** The inferred recording flag; `None` when the reply says nothing. */
  function Infer(j: Json, prior: string): Option<bool> {
    if Evidence(j, prior) then Some(EvidenceOfRecording(j, prior)) else FirstBool(j, FLAG_KEYS)
  }

  /** The status text at the end: `state` fills in for an empty one. */
  function FinalStatus(j: Json, prior: string): string {
    if StatusText(j, prior) == "" then TextOr(At(j, "state"), "") else StatusText(j, prior)
  }

  class LoggerResult {
    var message: string
    var hasRecordingFlag: bool
    var recordingActive: bool
    var sessionName: string
    var statusValue: string
    var mode: string
    var hasWriteSpeed: bool
    var writeSpeed: int

    constructor (message: string)
      ensures this.message == message && !hasRecordingFlag && !recordingActive
      ensures sessionName == "" && statusValue == "" && mode == "" && !hasWriteSpeed && writeSpeed == 0
    {
      this.message, hasRecordingFlag, recordingActive := message, false, false;
      sessionName, statusValue, mode, hasWriteSpeed, writeSpeed := "", "", "", false, 0;
    }

    /** The cascade of updates; `root` is the parsed body, `None` if empty or not JSON. */
    method EnrichFromJson(root: Option<Json>) returns (threw: bool)
      modifies this
      ensures threw <==> root.Some? && root.value.Obj? && SpeedOverflows(root.value)
      ensures root.None? || !root.value.Obj? ==> unchanged(this)
      ensures root.Some? && root.value.Obj? ==>
                var j := root.value;
                && sessionName == TextOr(At(j, "sessionName"), old(sessionName))
                && mode == TextOr(At(j, "mode"), old(mode))
                && hasWriteSpeed == (old(hasWriteSpeed) || SaysSpeed(j))
                && statusValue == (if threw then StatusText(j, old(statusValue)) else FinalStatus(j, old(statusValue)))
                && writeSpeed == (if SaysSpeed(j) && !threw then AsInt(At(j, "writeSpeed")).value else old(writeSpeed))
                && message == (if threw || old(message) != "" then old(message)
                               else if statusValue != "" then statusValue else mode)
      ensures root.Some? && root.value.Obj? && !threw ==>
                var inferred := Infer(root.value, old(statusValue));
                && hasRecordingFlag == (old(hasRecordingFlag) || inferred.Some?)
                && recordingActive == if inferred.Some? then inferred.value else old(recordingActive)
      ensures threw ==> hasRecordingFlag == old(hasRecordingFlag) && recordingActive == old(recordingActive)
    {
      if root.None? || !root.value.Obj? { return false; }
      var j := root.value;
      var usedHeuristic, recordingViaHeuristic := ReadTexts(j);
      var usedSpeed, viaSpeed;
      threw, usedSpeed, viaSpeed := ReadSpeed(j);
      if threw { return; }
      FillIn(j);
      if usedHeuristic || usedSpeed {
        hasRecordingFlag, recordingActive := true, recordingViaHeuristic || viaSpeed;
        return;
      }
      ReadFlags(j);
    }

    method ReadTexts(j: Json) returns (used: bool, via: bool)
      modifies this`statusValue, this`mode, this`sessionName
      ensures statusValue == StatusText(j, old(statusValue))
      ensures mode == TextOr(At(j, "mode"), old(mode))
      ensures sessionName == TextOr(At(j, "sessionName"), old(sessionName))
      ensures used == (SaysStatus(j) || SaysSession(j, old(statusValue)))
      ensures via == ((SaysStatus(j) && At(j, "status").s == "recording") || SaysSession(j, old(statusValue)))
    {
      used, via := false, false;
      if At(j, "status").Str? {
        statusValue := At(j, "status").s;
        used := true;
        if statusValue == "recording" { via := true; }
      }
      if At(j, "mode").Str? { mode := At(j, "mode").s; }
      if At(j, "sessionName").Str? {
        sessionName := At(j, "sessionName").s;
        if sessionName != "" && statusValue != "ready" {
          used := true;
          if statusValue != "ready" { via := true; }
        }
      }
    }

    method ReadSpeed(j: Json) returns (threw: bool, used: bool, via: bool)
      modifies this`hasWriteSpeed, this`writeSpeed
      ensures threw == SpeedOverflows(j) && used == (SaysSpeed(j) && !threw)
      ensures hasWriteSpeed == (old(hasWriteSpeed) || SaysSpeed(j))
      ensures writeSpeed == if used then AsInt(At(j, "writeSpeed")).value else old(writeSpeed)
      ensures via == (used && writeSpeed > 0)
    {
      threw, used, via := false, false, false;
      if IsNumeric(At(j, "writeSpeed")) {
        hasWriteSpeed := true;
        var speed := AsInt(At(j, "writeSpeed"));
        if speed.None? { return true, false, false; }
        writeSpeed := speed.value;
        used := true;
        if writeSpeed > 0 { via := true; }
      }
    }

    method FillIn(j: Json)
      modifies this`statusValue, this`message
      ensures statusValue == if old(statusValue) == "" then TextOr(At(j, "state"), "") else old(statusValue)
      ensures message == if old(message) != "" then old(message) else if statusValue != "" then statusValue else mode
    {
      if statusValue == "" {
        if At(j, "state").Str? { statusValue := At(j, "state").s; }
      }
      if message == "" {
        if statusValue != "" { message := statusValue; } else if mode != "" { message := mode; }
      }
    }

    method ReadFlags(j: Json)
      modifies this`hasRecordingFlag, this`recordingActive
      ensures var flag := FirstBool(j, FLAG_KEYS);
              && hasRecordingFlag == (old(hasRecordingFlag) || flag.Some?)
              && recordingActive == if flag.Some? then flag.value else old(recordingActive)
    {
      FlagKeysUnroll(j);
      var done := AssignBool(At(j, "recording"));
      if !done { done := AssignBool(At(j, "isRecording")); }
      if !done { done := AssignBool(At(j, "recording_active")); }
      if !done { done := AssignBool(At(j, "active")); }
    }

    method AssignBool(v: Json) returns (done: bool)
      modifies this`hasRecordingFlag, this`recordingActive
      ensures done == v.Bool?
      ensures hasRecordingFlag == (old(hasRecordingFlag) || v.Bool?)
      ensures recordingActive == if v.Bool? then v.b else old(recordingActive)
    {
      if v.Bool? {
        hasRecordingFlag, recordingActive := true, v.b;
        return true;
      }
      done := false;
    }
  }

  lemma FlagKeysUnroll(j: Json)
    ensures FirstBool(j, FLAG_KEYS) ==
            if At(j, "recording").Bool? then Some(At(j, "recording").b)
            else if At(j, "isRecording").Bool? then Some(At(j, "isRecording").b)
            else if At(j, "recording_active").Bool? then Some(At(j, "recording_active").b)
            else if At(j, "active").Bool? then Some(At(j, "active").b)
            else None
  {
    var k1 := FLAG_KEYS[1..];
    var k2 := k1[1..];
    var k3 := k2[1..];
    assert k1[0] == "isRecording" && k2[0] == "recording_active" && k3[0] == "active";
    assert FirstBool(j, k3) == if At(j, "active").Bool? then Some(At(j, "active").b) else None;
    assert FirstBool(j, k2) == if At(j, k2[0]).Bool? then Some(At(j, k2[0]).b) else FirstBool(j, k3);
    assert FirstBool(j, k1) == if At(j, k1[0]).Bool? then Some(At(j, k1[0]).b) else FirstBool(j, k2);
  }

  /** With any evidence present the explicit flags have no influence, whatever they hold. */
  lemma FlagsIgnoredWithEvidence(fields: map<string, Json>, prior: string, key: string, v: Json)
    requires Evidence(Obj(fields), prior) && key in FLAG_KEYS
    ensures Infer(Obj(fields[key := v]), prior) == Infer(Obj(fields), prior)
  {
    NotEvidenceKeys(key);
  }

  lemma NotEvidenceKeys(key: string)
    requires key in FLAG_KEYS
    ensures key != "status" && key != "sessionName" && key != "writeSpeed"
  {
    assert key == FLAG_KEYS[0] || key == FLAG_KEYS[1] || key == FLAG_KEYS[2] || key == FLAG_KEYS[3];
    assert |"recording"| == |"isRecording"| - 2 && "isRecording"[0] == 'i';
    assert |"recording_active"| == 16 && |"active"| == 6 && "active"[0] == 'a';
    assert "recording"[0] == 'r' && "recording_active"[0] == 'r';
    assert "status"[0] == 's' && "sessionName"[0] == 's' && "writeSpeed"[0] == 'w';
  }

  /** Without evidence the verdict is decided by the first key of the list that is boolean. */
  lemma {:induction false} FirstBoolDecides(j: Json, keys: seq<string>)
    ensures FirstBool(j, keys).None? <==> forall k :: 0 <= k < |keys| ==> !At(j, keys[k]).Bool?
    ensures forall k :: 0 <= k < |keys| && At(j, keys[k]).Bool? && (forall i :: 0 <= i < k ==> !At(j, keys[i]).Bool?)
              ==> FirstBool(j, keys) == Some(At(j, keys[k]).b)
  {
    if keys != [] {
      FirstBoolDecides(j, keys[1..]);
      assert forall k :: 0 < k < |keys| ==> keys[k] == keys[1..][k - 1];
      forall k | 0 <= k < |keys| && At(j, keys[k]).Bool? && (forall i :: 0 <= i < k ==> !At(j, keys[i]).Bool?)
        ensures FirstBool(j, keys) == Some(At(j, keys[k]).b)
      {
        if k > 0 {
          assert !At(j, keys[0]).Bool?;
          assert forall i :: 0 <= i < k - 1 ==> keys[1..][i] == keys[i + 1];
          assert At(j, keys[1..][k - 1]).Bool?;
        }
      }
    }
  }

  // The verdict on the fields of a reply

  /** A named session other than on a ready device. */
  predicate Named(j: Json, status: string) {
    At(j, "sessionName").Str? && At(j, "sessionName") != Str("") && status != "ready"
  }

  /** A reply with a status text and no write speed: recording exactly when the status says so,
      or a session is named and the status is not "ready". */
  lemma VerdictByStatus(j: Json, prior: string, s: string)
    requires At(j, "status") == Str(s) && !IsNumeric(At(j, "writeSpeed"))
    ensures Infer(j, prior) == Some(s == "recording" || Named(j, s))
  {}

  /** Without a status text the earlier one is in force; a named session then decides alone, and
      failing that the first boolean of the four flags, in this order. */
  lemma VerdictWithoutStatus(j: Json, prior: string)
    requires !At(j, "status").Str? && !IsNumeric(At(j, "writeSpeed"))
    ensures Infer(j, prior) ==
            if Named(j, prior) then Some(true)
            else if At(j, "recording").Bool? then Some(At(j, "recording").b)
            else if At(j, "isRecording").Bool? then Some(At(j, "isRecording").b)
            else if At(j, "recording_active").Bool? then Some(At(j, "recording_active").b)
            else if At(j, "active").Bool? then Some(At(j, "active").b)
            else None
  {
    FlagKeysUnroll(j);
  }

  /** A whole write speed in the range of a 32-bit integer is evidence: of recording when it is
      positive, and otherwise the texts decide. */
  lemma VerdictByWholeSpeed(j: Json, prior: string, i: int)
    requires At(j, "writeSpeed") == Int(i)
    ensures SpeedOverflows(j) <==> i < -2147483648 || i > 2147483647
    ensures !SpeedOverflows(j) ==>
              Infer(j, prior) == Some(
                || i > 0
                || At(j, "status") == Str("recording")
                || Named(j, if At(j, "status").Str? then At(j, "status").s else prior))
  {}

  /** A fractional write speed counts by its whole part. */
  lemma VerdictByFractionalSpeed(j: Json, prior: string, r: real, text: NumberText)
    requires At(j, "writeSpeed") == Real(r, text)
    ensures SpeedOverflows(j) <==> r < -2147483648.0 || r > 2147483647.0
    ensures !SpeedOverflows(j) ==>
              Infer(j, prior) == Some(
                || r >= 1.0
                || At(j, "status") == Str("recording")
                || Named(j, if At(j, "status").Str? then At(j, "status").s else prior))
  {}

  /** The texts the reply leaves in the result: its own, or "state" where there is no status. */
  lemma FinalStatusText(j: Json, prior: string)
    ensures FinalStatus(j, prior) ==
            if At(j, "status").Str? && At(j, "status") != Str("") then At(j, "status").s
            else if !At(j, "status").Str? && prior != "" then prior
            else if At(j, "state").Str? then At(j, "state").s
            else ""
  {}
}
