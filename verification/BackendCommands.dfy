/** The backend's connect loop and its command handler: one acknowledgement per consumed
    command, in order, over any number of reconnections. */
module BackendCommands {
  import opened Wrappers
  import opened JsonTree
  import Decimal
  import GuiMessages
  import PresenceProtocol

  datatype Topics = Topics(presence: string, status: string, heartbeat: string, cmd: string, ack: string)

  function MakeTopics(droneId: string): Topics {
    var prefix := "ironsoft/uav/" + droneId;
    Topics(prefix + "/presence", prefix + "/status", prefix + "/heartbeat", prefix + "/cmd", prefix + "/ack")
  }

  /** Acknowledgements travel on a topic of their own. */
  predicate AckTopicApart(t: Topics) {
    t.ack != t.presence && t.ack != t.status && t.ack != t.heartbeat && t.ack != t.cmd
  }

  lemma TopicsApart(droneId: string)
    ensures AckTopicApart(MakeTopics(droneId))
    ensures var t := MakeTopics(droneId);
            t.presence != t.status && t.presence != t.cmd && t.status != t.cmd
  {
    var prefix := "ironsoft/uav/" + droneId;
    assert (prefix + "/presence")[|prefix| + 1] == 'p' && (prefix + "/status")[|prefix| + 1] == 's';
    assert (prefix + "/heartbeat")[|prefix| + 1] == 'h';
    assert (prefix + "/cmd")[|prefix| + 1] == 'c' && (prefix + "/ack")[|prefix| + 1] == 'a';
  }

  /** A message taken off the queue: `payload` is `None` when it is not JSON, and `answerable`
      says whether the connection still carries the publish of an answer to it. */
  datatype Delivery = Delivery(topic: string, payload: Option<Json>, answerable: bool)

  datatype Sent = Sent(topic: string, payload: Json, qos: nat, retained: bool)

  /** What a handler answers; `Threw` is an exception out of the JSON library. */
  datatype Handled = Handled(ok: bool, message: string, error: string) | Threw

  function HandlePingOnly(payload: Option<Json>): Handled {
    if payload.None? then Handled(false, "", "BAD_JSON")
    else if !payload.value.Obj? && !payload.value.Null? then Threw
    else
      var kind := if Has(payload.value, "type") then AsString(payload.value.fields["type"]) else Some("");
      if kind.None? then Threw
      else if kind.value == "ping" then Handled(true, "pong", "")
      else Handled(false, "", "UNKNOWN_CMD")
  }

  /** The id echoed in the acknowledgement, read with every exception swallowed. */
  function CommandId(payload: Option<Json>): string {
    if payload.None? || !Has(payload.value, "id") then ""
    else
      var id := AsString(payload.value.fields["id"]);
      if id.Some? then id.value else ""
  }

  function AckJson(id: string, res: Handled): Json
    requires res.Handled?
  {
    if res.ok then Obj(map["id" := Str(id), "ok" := Bool(true), "message" := Str(res.message)])
    else Obj(map["id" := Str(id), "ok" := Bool(false), "error" := Str(res.error)])
  }

  /** A command the handler survives. */
  predicate Answerable(payload: Option<Json>) { HandlePingOnly(payload).Handled? }

  function AckFor(payload: Option<Json>): Json
    requires Answerable(payload)
  {
    AckJson(CommandId(payload), HandlePingOnly(payload))
  }

  predicate IsPing(payload: Option<Json>) {
    payload.Some? && Has(payload.value, "type") && payload.value.fields["type"] == Str("ping")
  }

  /** Only the JSON string "ping" reads as the text ping: no number or boolean prints so. */
  lemma OnlyStringReadsPing(j: Json)
    ensures AsString(j) == Some("ping") <==> j == Str("ping")
  {
    match j
    case Int(i) =>
      assert Decimal.IntText(i)[0] == '-' || '0' <= Decimal.IntText(i)[0] <= '9';
      assert "ping"[0] == 'p';
    case Real(_, text) => assert "ping"[0] == 'p';
    case Bool(b) => assert "true"[0] == 't' && "false"[0] == 'f' && "ping"[0] == 'p';
    case _ =>
  }

  /** What one acknowledgement says: it echoes the id, is positive exactly for a ping, and
      carries a message or an error, never both. */
  lemma AckMeaning(payload: Option<Json>)
    requires Answerable(payload)
    ensures var ack := AckFor(payload);
            && At(ack, "id") == Str(CommandId(payload))
            && At(ack, "ok") == Bool(IsPing(payload))
            && (IsPing(payload) ==> At(ack, "message") == Str("pong") && !Has(ack, "error"))
            && (payload.None? ==> At(ack, "error") == Str("BAD_JSON"))
            && (payload.Some? && !IsPing(payload) ==> At(ack, "error") == Str("UNKNOWN_CMD"))
            && (!IsPing(payload) ==> !Has(ack, "message"))
  {
    if payload.Some? && Has(payload.value, "type") { OnlyStringReadsPing(payload.value.fields["type"]); }
  }

  /** What an acknowledgement owes its command: the id of the command as text, whatever its
      type, and the verdict on it. Numbers echo as the library prints them; a command that is no
      object, or whose id is absent, null, an array or an object, is answered with "". */
  predicate Answering(cmd: Option<Json>, ack: Json) {
    var given := if cmd.Some? then At(cmd.value, "id") else Null;
    var ping := cmd.Some? && At(cmd.value, "type") == Str("ping");
    && (given.Str? ==> At(ack, "id") == given)
    && (given.Null? || given.Arr? || given.Obj? ==> At(ack, "id") == Str(""))
    && (given == Bool(true) ==> At(ack, "id") == Str("true"))
    && (given == Bool(false) ==> At(ack, "id") == Str("false"))
    && (given.Int? ==> At(ack, "id") == Str(Decimal.IntText(given.i)))
    && (given.Real? ==> At(ack, "id") == Str(given.text))
    && At(ack, "ok") == Bool(ping)
    && (if ping then At(ack, "message") == Str("pong") && !Has(ack, "error")
        else
          && !Has(ack, "message")
          && At(ack, "error") == Str(if cmd.None? then "BAD_JSON" else "UNKNOWN_CMD"))
  }

  /** Every acknowledgement answers its command. */
  lemma AckAnswers(cmd: Option<Json>)
    requires Answerable(cmd)
    ensures Answering(cmd, AckFor(cmd))
  {
    AckMeaning(cmd);
  }

  /** The handler throws exactly on JSON that is neither object nor null, and on an object
      whose type is an array or an object. */
  lemma WhenItThrows(payload: Option<Json>)
    ensures !Answerable(payload) <==>
            payload.Some? && !payload.value.Null?
            && (payload.value.Obj? ==> At(payload.value, "type").Arr? || At(payload.value, "type").Obj?)
  {}

  /** The GUI's ping command and the acknowledgement the GUI reads back for it. */
  function PingCommand(id: string): Json { Obj(map["id" := Str(id), "type" := Str("ping")]) }

  lemma PingRoundTrip(id: string)
    requires id != ""
    ensures Answerable(Some(PingCommand(id)))
    ensures GuiMessages.AckOf(Some(AckFor(Some(PingCommand(id)))))
            == Some(GuiMessages.AckBody(id, true, ""))
  {
    AckMeaning(Some(PingCommand(id)));
  }

  // Sequences of messages

  function Commands(topics: Topics, inbox: seq<Delivery>): seq<Option<Json>> {
    if inbox == [] then []
    else
      var n := |inbox| - 1;
      Commands(topics, inbox[..n]) + if inbox[n].topic == topics.cmd then [inbox[n].payload] else []
  }

  predicate Survives(topics: Topics, d: Delivery) { d.topic == topics.cmd ==> Answerable(d.payload) && d.answerable }

  predicate AllSurvive(topics: Topics, ds: seq<Delivery>) { forall d :: d in ds ==> Survives(topics, d) }

  /** The messages processed before the first one whose handler or answer throws. */
  function Consumed(topics: Topics, inbox: seq<Delivery>): (c: seq<Delivery>)
    ensures c <= inbox
    ensures AllSurvive(topics, c)
    ensures |c| < |inbox| ==> !Survives(topics, inbox[|c|])
  {
    if inbox == [] then []
    else
      var before := Consumed(topics, inbox[..|inbox| - 1]);
      if |before| == |inbox| - 1 && Survives(topics, inbox[|inbox| - 1]) then inbox else before
  }

  predicate AllAnswerable(cmds: seq<Option<Json>>) { forall c :: c in cmds ==> Answerable(c) }

  lemma {:induction false} SurvivorsAnswerable(topics: Topics, inbox: seq<Delivery>)
    requires AllSurvive(topics, inbox)
    ensures AllAnswerable(Commands(topics, inbox))
  {
    if inbox != [] {
      var n := |inbox| - 1;
      assert forall d :: d in inbox[..n] ==> d in inbox;
      SurvivorsAnswerable(topics, inbox[..n]);
      assert inbox[n] in inbox;
    }
  }

  /** The acknowledgements for a list of commands. */
  function Acks(topics: Topics, cmds: seq<Option<Json>>): seq<Sent>
    requires AllAnswerable(cmds)
  {
    if cmds == [] then []
    else
      var n := |cmds| - 1;
      Acks(topics, cmds[..n]) + [Sent(topics.ack, AckFor(cmds[n]), 1, false)]
  }

  /** One each and in order. */
  lemma {:induction false} AcksAre(topics: Topics, cmds: seq<Option<Json>>)
    requires AllAnswerable(cmds)
    ensures |Acks(topics, cmds)| == |cmds|
    ensures forall k :: 0 <= k < |cmds| ==> Acks(topics, cmds)[k] == Sent(topics.ack, AckFor(cmds[k]), 1, false)
  {
    if cmds != [] { AcksAre(topics, cmds[..|cmds| - 1]); }
  }

  lemma {:induction false} AcksConcat(topics: Topics, a: seq<Option<Json>>, b: seq<Option<Json>>)
    requires AllAnswerable(a) && AllAnswerable(b)
    ensures AllAnswerable(a + b) && Acks(topics, a + b) == Acks(topics, a) + Acks(topics, b)
  {
    if b == [] {
      assert a + b == a;
    } else {
      var n := |b| - 1;
      AcksConcat(topics, a, b[..n]);
      assert (a + b)[..|a + b| - 1] == a + b[..n];
    }
  }

  /** One turn of the outer loop: a refused connection; a connection that breaks after
      `greetings` of its two greeting publishes, in a publish or in the subscription; or a
      session with the messages that arrive before the queue reports the loss or the stop is
      seen. `now` is the time of the greeting. */
  datatype Attempt = Refused | Broken(now: int, greetings: nat) | Session(now: int, inbox: seq<Delivery>)

  function StatusJson(): Json {
    Obj(map["mode" := Str("IDLE"), "api_ok" := Bool(true), "last_error" := Str("")])
  }

  function Greeting(topics: Topics, now: int): seq<Sent> {
    [Sent(topics.presence, PresenceProtocol.OnlineJson(now), 1, true)]
    + [Sent(topics.status, StatusJson(), 1, true)]
  }

  /** The commands of a session that are answered. */
  function Answered(topics: Topics, a: Attempt): (cmds: seq<Option<Json>>)
    ensures AllAnswerable(cmds)
  {
    if !a.Session? then []
    else
      SurvivorsAnswerable(topics, Consumed(topics, a.inbox));
      Commands(topics, Consumed(topics, a.inbox))
  }

  function SessionOutput(topics: Topics, a: Attempt): seq<Sent> {
    match a
    case Refused => []
    case Broken(now, greetings) => Greeting(topics, now)[..if greetings < 2 then greetings else 2]
    case Session(now, _) => Greeting(topics, now) + Acks(topics, Answered(topics, a))
  }

  function Output(topics: Topics, script: seq<Attempt>): seq<Sent> {
    if script == [] then []
    else Output(topics, script[..|script| - 1]) + SessionOutput(topics, script[|script| - 1])
  }

  lemma Associative<T>(a: seq<T>, b: seq<T>, c: seq<T>)
    ensures (a + b) + c == a + (b + c)
    ensures a + [] == a
  {}

  class MqttBackendClient {
    const droneId: string
    const topics := MakeTopics(droneId)
    var connected: bool
    var sent: seq<Sent>

    constructor (droneId: string)
      ensures this.droneId == droneId && !connected && sent == []
    {
      this.droneId, connected, sent := droneId, false, [];
    }

    /** The connect loop over a script that ends where the stop request is seen. What it adds to
        the acknowledgement topic is one answer to each command consumed, in order. */
    method RunConnectLoop(script: seq<Attempt>)
      modifies this
      ensures sent == old(sent) + Output(topics, script)
      ensures OnTopic(sent, topics.ack)
              == OnTopic(old(sent), topics.ack) + Acks(topics, AllAnswered(topics, script))
      ensures script != [] ==> !connected
    {
      var i := 0;
      assert script[..0] == [];
      while i < |script|
        invariant 0 <= i <= |script|
        invariant sent == old(sent) + Output(topics, script[..i])
        invariant i > 0 ==> !connected
      {
        OutputSnoc(topics, script, i);
        Associative(old(sent), Output(topics, script[..i]), SessionOutput(topics, script[i]));
        RunAttempt(script[i]);
        i := i + 1;
      }
      assert script[..|script|] == script;
      AckCorrespondence(droneId, script);
      OnTopicConcat(old(sent), Output(topics, script), topics.ack);
    }

    /** One turn of the outer loop: however it ends, the backend is disconnected after it. */
    method RunAttempt(a: Attempt)
      modifies this
      ensures sent == old(sent) + SessionOutput(topics, a) && !connected
    {
      match a {
        case Refused =>
        case Broken(now, greetings) =>
          connected := true;
          RunGreeting(now, greetings);
        case Session(now, inbox) =>
          connected := true;
          RunSession(now, inbox);
      }
      connected := false;
    }

    /** A greeting that breaks off: presence first, then status. */
    method RunGreeting(now: int, greetings: nat)
      requires connected
      modifies this`sent
      ensures sent == old(sent) + SessionOutput(topics, Broken(now, greetings))
    {
      if greetings == 0 { return; }
      sent := sent + [Sent(topics.presence, PresenceProtocol.OnlineJson(now), 1, true)];
      if greetings == 1 { return; }
      sent := sent + [Sent(topics.status, StatusJson(), 1, true)];
    }

    /** Handle one message; `threw` says that the handler or the publish of its answer did. */
    method Consume(d: Delivery) returns (threw: bool)
      modifies this`sent
      ensures threw <==> !Survives(topics, d)
      ensures sent == old(sent) + if threw then [] else Reply(topics, d)
    {
      if d.topic != topics.cmd { return false; }
      var res := HandlePingOnly(d.payload);
      if res.Threw? || !d.answerable { return true; }
      sent := sent + [Sent(topics.ack, AckJson(CommandId(d.payload), res), 1, false)];
      threw := false;
    }

    /** Announce, then consume until the queue ends or a message throws. The flag that lets the
        heartbeat run is up before anything is published. */
    method RunSession(now: int, inbox: seq<Delivery>)
      requires connected
      modifies this`sent
      ensures sent == old(sent) + SessionOutput(topics, Session(now, inbox))
    {
      sent := sent + Greeting(topics, now);
      ghost var greeted := sent;
      var j, threw := 0, false;
      assert inbox[..0] == [];
      while j < |inbox| && !threw
        invariant 0 <= j <= |inbox| && AllSurvive(topics, inbox[..j])
        invariant threw ==> j < |inbox| && !Survives(topics, inbox[j])
        invariant sent == greeted + Replies(topics, inbox[..j])
        decreases |inbox| - j, !threw
      {
        threw := Consume(inbox[j]);
        if !threw {
          RepliesSnoc(topics, inbox, j);
          Associative(greeted, Replies(topics, inbox[..j]), Reply(topics, inbox[j]));
          j := j + 1;
        }
      }
      ConsumedIs(topics, inbox, j);
      Associative(old(sent), Greeting(topics, now), Replies(topics, inbox[..j]));
    }
  }

  /** What one surviving message adds to the output. */
  function Reply(topics: Topics, d: Delivery): seq<Sent>
    requires Survives(topics, d)
  {
    if d.topic == topics.cmd then [Sent(topics.ack, AckFor(d.payload), 1, false)] else []
  }

  function Replies(topics: Topics, ds: seq<Delivery>): seq<Sent>
    requires AllSurvive(topics, ds)
  {
    SurvivorsAnswerable(topics, ds);
    Acks(topics, Commands(topics, ds))
  }

  lemma RepliesSnoc(topics: Topics, inbox: seq<Delivery>, j: nat)
    requires j < |inbox| && AllSurvive(topics, inbox[..j]) && Survives(topics, inbox[j])
    ensures AllSurvive(topics, inbox[..j + 1])
    ensures Replies(topics, inbox[..j + 1]) == Replies(topics, inbox[..j]) + Reply(topics, inbox[j])
  {
    CommandsSnoc(topics, inbox, j);
    SurvivorsAnswerable(topics, inbox[..j]);
    if inbox[j].topic == topics.cmd {
      AcksSnoc(topics, Commands(topics, inbox[..j]), inbox[j].payload);
    } else {
      assert Commands(topics, inbox[..j]) + [] == Commands(topics, inbox[..j]);
    }
  }

  lemma OutputSnoc(topics: Topics, script: seq<Attempt>, i: nat)
    requires i < |script|
    ensures Output(topics, script[..i + 1]) == Output(topics, script[..i]) + SessionOutput(topics, script[i])
  {
    assert script[..i + 1][..i] == script[..i];
  }

  lemma CommandsSnoc(topics: Topics, inbox: seq<Delivery>, j: nat)
    requires j < |inbox|
    ensures Commands(topics, inbox[..j + 1])
            == Commands(topics, inbox[..j]) + if inbox[j].topic == topics.cmd then [inbox[j].payload] else []
    ensures forall d :: d in inbox[..j + 1] ==> d in inbox[..j] || d == inbox[j]
  {
    assert inbox[..j + 1][..j] == inbox[..j];
  }

  lemma AcksSnoc(topics: Topics, cmds: seq<Option<Json>>, c: Option<Json>)
    requires AllAnswerable(cmds) && Answerable(c)
    ensures AllAnswerable(cmds + [c])
    ensures Acks(topics, cmds + [c]) == Acks(topics, cmds) + [Sent(topics.ack, AckFor(c), 1, false)]
  {
    assert (cmds + [c])[..|cmds|] == cmds;
  }

  /** The consumed prefix is determined by its two properties. */
  lemma ConsumedIs(topics: Topics, inbox: seq<Delivery>, j: nat)
    requires j <= |inbox|
    requires AllSurvive(topics, inbox[..j])
    requires j < |inbox| ==> !Survives(topics, inbox[j])
    ensures Consumed(topics, inbox) == inbox[..j]
  {
  }

  // Over any number of reconnections

  /** Everything answered over a script, in order. */
  function AllAnswered(topics: Topics, script: seq<Attempt>): (cmds: seq<Option<Json>>)
    ensures AllAnswerable(cmds)
  {
    if script == [] then []
    else AllAnswered(topics, script[..|script| - 1]) + Answered(topics, script[|script| - 1])
  }

  /** The messages on one topic. */
  function OnTopic(sent: seq<Sent>, topic: string): seq<Sent> {
    if sent == [] then []
    else
      var n := |sent| - 1;
      OnTopic(sent[..n], topic) + if sent[n].topic == topic then [sent[n]] else []
  }

  lemma {:induction false} OnTopicConcat(a: seq<Sent>, b: seq<Sent>, topic: string)
    ensures OnTopic(a + b, topic) == OnTopic(a, topic) + OnTopic(b, topic)
  {
    if b == [] {
      assert a + b == a;
    } else {
      assert (a + b)[..|a + b| - 1] == a + b[..|b| - 1];
      OnTopicConcat(a, b[..|b| - 1], topic);
    }
  }

  lemma OnTopicOne(s: Sent, topic: string)
    ensures OnTopic([s], topic) == if s.topic == topic then [s] else []
  {
    assert [s][..0] == [];
  }

  lemma {:induction false} AcksOnTopic(topics: Topics, cmds: seq<Option<Json>>)
    requires AllAnswerable(cmds)
    ensures OnTopic(Acks(topics, cmds), topics.ack) == Acks(topics, cmds)
  {
    if cmds != [] {
      var n := |cmds| - 1;
      AcksOnTopic(topics, cmds[..n]);
      var last := Sent(topics.ack, AckFor(cmds[n]), 1, false);
      OnTopicOne(last, topics.ack);
      OnTopicConcat(Acks(topics, cmds[..n]), [last], topics.ack);
    }
  }

  lemma GreetingSilent(topics: Topics, now: int, k: nat)
    requires AckTopicApart(topics) && k <= 2
    ensures OnTopic(Greeting(topics, now)[..k], topics.ack) == []
  {
    var online := Sent(topics.presence, PresenceProtocol.OnlineJson(now), 1, true);
    var status := Sent(topics.status, StatusJson(), 1, true);
    OnTopicOne(online, topics.ack);
    OnTopicOne(status, topics.ack);
    OnTopicConcat([online], [status], topics.ack);
    var part := Greeting(topics, now)[..k];
    assert k == 0 ==> part == [];
    assert k == 1 ==> part == [online];
    assert k == 2 ==> part == [online] + [status];
  }

  lemma SessionAcks(topics: Topics, a: Attempt)
    requires AckTopicApart(topics)
    ensures OnTopic(SessionOutput(topics, a), topics.ack) == Acks(topics, Answered(topics, a))
  {
    if a.Session? {
      GreetingSilent(topics, a.now, 2);
      assert Greeting(topics, a.now)[..2] == Greeting(topics, a.now);
      OnTopicConcat(Greeting(topics, a.now), Acks(topics, Answered(topics, a)), topics.ack);
      AcksOnTopic(topics, Answered(topics, a));
    } else if a.Broken? {
      GreetingSilent(topics, a.now, if a.greetings < 2 then a.greetings else 2);
    }
  }

  /** Correspondence: the acknowledgements published over any script are exactly the in-order
      image of the commands consumed, one each. `AcksAre` and `AckMeaning` say what the k-th
      one holds. */
  lemma {:induction false} AckCorrespondence(droneId: string, script: seq<Attempt>)
    ensures var topics := MakeTopics(droneId);
            OnTopic(Output(topics, script), topics.ack) == Acks(topics, AllAnswered(topics, script))
  {
    TopicsApart(droneId);
    OutputAcks(MakeTopics(droneId), script);
  }

  lemma {:induction false} OutputAcks(topics: Topics, script: seq<Attempt>)
    requires AckTopicApart(topics)
    ensures OnTopic(Output(topics, script), topics.ack) == Acks(topics, AllAnswered(topics, script))
  {
    if script != [] {
      var n := |script| - 1;
      OutputAcks(topics, script[..n]);
      SessionAcks(topics, script[n]);
      OnTopicConcat(Output(topics, script[..n]), SessionOutput(topics, script[n]), topics.ack);
      AcksConcat(topics, AllAnswered(topics, script[..n]), Answered(topics, script[n]));
    }
  }

  /** The k-th answer on the drone's ack topic answers the k-th command consumed. */
  lemma KthAnswer(droneId: string, script: seq<Attempt>, k: nat)
    requires k < |AllAnswered(MakeTopics(droneId), script)|
    ensures var answers := OnTopic(Output(MakeTopics(droneId), script), "ironsoft/uav/" + droneId + "/ack");
            var cmds := AllAnswered(MakeTopics(droneId), script);
            && |answers| == |cmds|
            && answers[k].qos == 1 && !answers[k].retained
            && Answering(cmds[k], answers[k].payload)
  {
    var topics := MakeTopics(droneId);
    var cmds := AllAnswered(topics, script);
    AckCorrespondence(droneId, script);
    AcksAre(topics, cmds);
    AckAnswers(cmds[k]);
  }

  /** `at` places each of the payloads in the inbox: increasing, on the topic, and complete. */
  predicate Placed(topic: string, inbox: seq<Delivery>, payloads: seq<Option<Json>>, at: seq<nat>) {
    && |at| == |payloads|
    && (forall k :: 0 <= k < |at| ==>
          at[k] < |inbox| && inbox[at[k]].topic == topic && payloads[k] == inbox[at[k]].payload)
    && (forall j, k :: 0 <= j < k < |at| ==> at[j] < at[k])
    && (forall i :: 0 <= i < |inbox| && inbox[i].topic == topic ==> i in at)
  }

  lemma PlacedMore(topic: string, inbox: seq<Delivery>, payloads: seq<Option<Json>>, at: seq<nat>, d: Delivery)
    requires Placed(topic, inbox, payloads, at) && d.topic == topic
    ensures Placed(topic, inbox + [d], payloads + [d.payload], at + [|inbox|])
  {
    assert (at + [|inbox|])[|at|] == |inbox|;
    assert forall i :: i in at ==> i in at + [|inbox|];
  }

  lemma PlacedOther(topic: string, inbox: seq<Delivery>, payloads: seq<Option<Json>>, at: seq<nat>, d: Delivery)
    requires Placed(topic, inbox, payloads, at) && d.topic != topic
    ensures Placed(topic, inbox + [d], payloads, at)
  {}

  lemma {:induction false} CommandsPlaced(topics: Topics, inbox: seq<Delivery>) returns (at: seq<nat>)
    ensures Placed(topics.cmd, inbox, Commands(topics, inbox), at)
  {
    at := [];
    if inbox != [] {
      var n := |inbox| - 1;
      at := CommandsPlaced(topics, inbox[..n]);
      assert inbox == inbox[..n] + [inbox[n]];
      var before := Commands(topics, inbox[..n]);
      if inbox[n].topic == topics.cmd {
        PlacedMore(topics.cmd, inbox[..n], before, at, inbox[n]);
        at := at + [n];
      } else {
        PlacedOther(topics.cmd, inbox[..n], before, at, inbox[n]);
        assert before + [] == before;
      }
    }
  }

  /** The commands of a session are the payloads it took from the drone's cmd topic, all of them
      and in order. */
  lemma CommandsAreTheCmdTopic(droneId: string, inbox: seq<Delivery>) returns (at: seq<nat>)
    ensures Placed("ironsoft/uav/" + droneId + "/cmd", inbox, Commands(MakeTopics(droneId), inbox), at)
  {
    at := CommandsPlaced(MakeTopics(droneId), inbox);
  }

  // What a session says of itself

  /** The announcements due over a script: one from every connection that got as far. */
  function Announcements(droneId: string, script: seq<Attempt>): seq<Sent> {
    if script == [] then []
    else
      var a := script[|script| - 1];
      Announcements(droneId, script[..|script| - 1])
      + if a.Session? || (a.Broken? && a.greetings > 0)
        then [Sent("ironsoft/uav/" + droneId + "/presence",
                   Obj(map["state" := Str("online"), "ts" := Int(a.now)]), 1, true)]
        else []
  }

  function StatusReports(droneId: string, script: seq<Attempt>): seq<Sent> {
    if script == [] then []
    else
      var a := script[|script| - 1];
      StatusReports(droneId, script[..|script| - 1])
      + if a.Session? || (a.Broken? && a.greetings > 1)
        then [Sent("ironsoft/uav/" + droneId + "/status",
                   Obj(map["mode" := Str("IDLE"), "api_ok" := Bool(true), "last_error" := Str("")]), 1, true)]
        else []
  }

  lemma {:induction false} AcksOffTopic(topics: Topics, cmds: seq<Option<Json>>, topic: string)
    requires AllAnswerable(cmds) && topic != topics.ack
    ensures OnTopic(Acks(topics, cmds), topic) == []
  {
    if cmds != [] {
      var n := |cmds| - 1;
      AcksOffTopic(topics, cmds[..n], topic);
      var last := Sent(topics.ack, AckFor(cmds[n]), 1, false);
      OnTopicOne(last, topic);
      OnTopicConcat(Acks(topics, cmds[..n]), [last], topic);
    }
  }

  lemma GreetingParts(topics: Topics, now: int, k: nat, topic: string)
    requires k <= 2 && topics.presence != topics.status
    ensures var online := Sent(topics.presence, PresenceProtocol.OnlineJson(now), 1, true);
            var status := Sent(topics.status, StatusJson(), 1, true);
            && (topic == topics.presence ==>
                  OnTopic(Greeting(topics, now)[..k], topic) == if k > 0 then [online] else [])
            && (topic == topics.status ==>
                  OnTopic(Greeting(topics, now)[..k], topic) == if k > 1 then [status] else [])
  {
    var online := Sent(topics.presence, PresenceProtocol.OnlineJson(now), 1, true);
    var status := Sent(topics.status, StatusJson(), 1, true);
    OnTopicOne(online, topic);
    OnTopicOne(status, topic);
    OnTopicConcat([online], [status], topic);
    var part := Greeting(topics, now)[..k];
    assert k == 0 ==> part == [];
    assert k == 1 ==> part == [online];
    assert k == 2 ==> part == [online] + [status];
  }

  lemma SessionGreets(topics: Topics, a: Attempt, topic: string)
    requires topics.presence != topics.status && topic != topics.ack
    requires topic == topics.presence || topic == topics.status
    ensures OnTopic(SessionOutput(topics, a), topic) ==
            if a.Refused? then []
            else OnTopic(Greeting(topics, a.now)[..if a.Session? || a.greetings >= 2 then 2 else a.greetings], topic)
  {
    if a.Session? {
      assert Greeting(topics, a.now)[..2] == Greeting(topics, a.now);
      OnTopicConcat(Greeting(topics, a.now), Acks(topics, Answered(topics, a)), topic);
      AcksOffTopic(topics, Answered(topics, a), topic);
    }
  }

  /** Over any script the drone's presence and status topics carry exactly its announcements and
      reports, in order, each retained: what the broker then holds is the newest of them. */
  lemma {:induction false} GreetingsAreRetained(droneId: string, script: seq<Attempt>)
    ensures var out := Output(MakeTopics(droneId), script);
            && OnTopic(out, "ironsoft/uav/" + droneId + "/presence") == Announcements(droneId, script)
            && OnTopic(out, "ironsoft/uav/" + droneId + "/status") == StatusReports(droneId, script)
  {
    if script != [] {
      var topics := MakeTopics(droneId);
      var n := |script| - 1;
      var a := script[n];
      GreetingsAreRetained(droneId, script[..n]);
      TopicsApart(droneId);
      SessionGreets(topics, a, topics.presence);
      SessionGreets(topics, a, topics.status);
      if !a.Refused? {
        var k := if a.Session? || a.greetings >= 2 then 2 else a.greetings;
        GreetingParts(topics, a.now, k, topics.presence);
        GreetingParts(topics, a.now, k, topics.status);
      }
      OnTopicConcat(Output(topics, script[..n]), SessionOutput(topics, a), topics.presence);
      OnTopicConcat(Output(topics, script[..n]), SessionOutput(topics, a), topics.status);
    }
  }

  /** Each announcement is, to the broker, the online publish of a session. */
  lemma {:induction false} AnnouncementsAreOnline(droneId: string, script: seq<Attempt>, m: Sent, session: nat)
    requires m in Announcements(droneId, script)
    ensures m.retained && m.qos == 1
    ensures exists ts :: m.payload == PresenceProtocol.Payload(PresenceProtocol.Online(session, ts))
  {
    var n := |script| - 1;
    if m in Announcements(droneId, script[..n]) {
      AnnouncementsAreOnline(droneId, script[..n], m, session);
    } else {
      assert m.payload == PresenceProtocol.Payload(PresenceProtocol.Online(session, script[n].now));
    }
  }
}
