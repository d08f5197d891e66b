/** What the GUI worker makes of an incoming message before it touches shared state. */
module GuiMessages {
  import opened Wrappers
  import opened JsonTree

  datatype Topic =
    | Presence | Status | Heartbeat | Ack
    | EkinoxPresence | EkinoxStatus | EkinoxHeartbeat | Foreign

  /** `payload` is the parsed text, `None` when it is not JSON. */
  datatype Message = Message(topic: Topic, payload: Option<Json>)

  datatype AckBody = AckBody(id: string, ok: bool, kind: string)

  /** The presence a payload announces; `None` leaves the flag alone. */
  function PresenceOf(payload: Option<Json>): Option<bool> {
    if payload.None? || !payload.value.Obj? then None
    else
      var state := QtString(payload.value, "state", "");
      if state == "online" then Some(true)
      else if state == "offline" then Some(false)
      else None
  }

  /** The acknowledgement in a payload; `None` for bad JSON and for an empty id. */
  function AckOf(payload: Option<Json>): Option<AckBody> {
    if payload.None? || !payload.value.Obj? then None
    else
      var id := QtString(payload.value, "id", "");
      if id == "" then None
      else Some(AckBody(id, QtBool(payload.value, "ok", false), QtString(payload.value, "type", "")))
  }

  /** Presence is read off the text of "state" alone, and any text but the two known ones, like
      anything that is not an object, announces nothing. */
  lemma PresenceReads(payload: Option<Json>)
    ensures PresenceOf(payload) == Some(true) <==>
            payload.Some? && Has(payload.value, "state") && payload.value.fields["state"] == Str("online")
    ensures PresenceOf(payload) == Some(false) <==>
            payload.Some? && Has(payload.value, "state") && payload.value.fields["state"] == Str("offline")
  {
    assert "online"[1] == 'n' && "offline"[1] == 'f' && |""| == 0;
  }

  /** An acknowledgement is an object whose "id" is a non-empty string; "ok" counts only when it
      is a boolean, "type" only when it is a string. */
  lemma AckReads(payload: Option<Json>)
    ensures AckOf(payload).Some? <==>
            payload.Some? && Has(payload.value, "id") && payload.value.fields["id"].Str?
            && payload.value.fields["id"] != Str("")
    ensures AckOf(payload).Some? ==>
              var f, ack := payload.value.fields, AckOf(payload).value;
              && f["id"] == Str(ack.id)
              && ack.ok == ("ok" in f && f["ok"] == Bool(true))
              && (if "type" in f && f["type"].Str? then f["type"] == Str(ack.kind) else ack.kind == "")
  {}
}
