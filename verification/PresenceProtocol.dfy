/** Backend presence, from the backend's connect loop through the broker to the GUI.

    The broker follows MQTT 3.1.1: a will is published when a session ends without a
    DISCONNECT (section 3.1.2.5), a second connection with the same client id ends the first
    session (section 3.1.4), a retained message replaces the stored one (section 3.3.1.3) and
    is replayed to a new subscriber (section 3.8.4), and a subscriber sees messages in order,
    possibly with repeats (sections 4.3.2 and 4.6). Loss, crash and reconnection on either
    side are steps of the environment. */
module PresenceProtocol {
  import opened Wrappers
  import opened JsonTree
  import opened GuiMessages

  /** The retained payload a session publishes once connected. */
  function OnlineJson(ts: int): Json {
    Obj(map["state" := Str("online"), "ts" := Int(ts)])
  }

  /** The will, fixed when the client object is built and registered at each connect. */
  function WillJson(ts: int): Json {
    Obj(map["state" := Str("offline"), "ts" := Int(ts), "reason" := Str("lwt")])
  }

  /** A presence publish as the broker applies it; sessions are numbered by the broker. */
  datatype Publish = Online(session: nat, ts: int) | Will(session: nat, ts: int)

  datatype Backend = Down | Up(session: nat, announced: bool)

  /** The GUI's session: `inbox` holds what the broker has forwarded and the worker has not
      consumed, `seen` what it has consumed; `live` says the link still carries data. Between
      giving up the connection and clearing the presence flag it is `Clearing`. */
  datatype Gui = Away | Clearing | Here(subscribed: bool, live: bool, inbox: seq<Json>, seen: seq<Json>)

  datatype State = State(
    // broker: the retained message, the backend session held and the will it registered
    retained: Option<Json>, session: Option<nat>, heldWill: int, next: nat, applied: seq<Publish>,
    // the backend's link: whether it carries data, and online publishes under way on it
    link: bool, inFlight: seq<int>,
    // backend: its position, and the timestamp in the will of its client object
    backend: Backend, willTs: int,
    gui: Gui, presence: bool)

  datatype Label =
    | BackendRestarts(ts: int) | BackendConnects | ConnackLost | BackendPublishes(ts: int) | BackendGivesUp
    | Resend | LinkDrops(kept: nat) | BrokerReceives | BrokerDetectsLoss
    | GuiConnects | GuiSubscribes | GuiConsumes | GuiRedelivery(from: nat)
    | GuiLinkDrops(left: nat) | GuiGivesUp | GuiClears

  function Init(willTs: int): State {
    State(None, None, 0, 0, [], false, [], Down, willTs, Away, false)
  }

  function Payload(p: Publish): Json {
    if p.Online? then OnlineJson(p.ts) else WillJson(p.ts)
  }

  /** The broker applies a retained publish: store it, forward it to a live subscriber. */
  function ApplyPublish(s: State, p: Publish): State {
    var j := Payload(p);
    s.(retained := Some(j), applied := s.applied + [p],
       gui := if s.gui.Here? && s.gui.subscribed && s.gui.live
              then s.gui.(inbox := s.gui.inbox + [j]) else s.gui)
  }

  /** The broker ends the backend session, if it holds one, and publishes its will. */
  function EndSession(s: State): State {
    if s.session.None? then s
    else ApplyPublish(s, Will(s.session.value, s.heldWill)).(session := None, link := false, inFlight := [])
  }

  function Accept(s: State, backend: Backend, link: bool): State {
    EndSession(s).(session := Some(s.next), heldWill := s.willTs, next := s.next + 1,
                   link := link, inFlight := [], backend := backend)
  }

  predicate Enabled(s: State, l: Label) {
    match l
    case BackendRestarts(_) => s.backend.Down?
    case BackendConnects => s.backend.Down?
    case ConnackLost => s.backend.Down?
    case BackendPublishes(_) => s.backend.Up? && !s.backend.announced
    case BackendGivesUp => s.backend.Up?
    case Resend => s.link && s.inFlight != []
    case LinkDrops(kept) => s.link && kept <= |s.inFlight|
    case BrokerReceives => s.session.Some? && s.inFlight != []
    case BrokerDetectsLoss => s.session.Some?
    case GuiConnects => s.gui.Away?
    case GuiSubscribes => s.gui.Here? && !s.gui.subscribed && s.gui.live
    case GuiConsumes => s.gui.Here? && s.gui.inbox != []
    case GuiRedelivery(from) => s.gui.Here? && s.gui.live && from <= |s.gui.seen|
    case GuiLinkDrops(left) => s.gui.Here? && left <= |s.gui.inbox|
    case GuiGivesUp => s.gui.Here?
    case GuiClears => s.gui.Clearing?
  }

  function Apply(s: State, l: Label): State
    requires Enabled(s, l)
  {
    match l
    case BackendRestarts(ts) => s.(willTs := ts)
    case BackendConnects => Accept(s, Up(s.next, false), true)
    case ConnackLost => Accept(s, Down, false)
    case BackendPublishes(ts) =>
      s.(backend := s.backend.(announced := true), inFlight := if s.link then s.inFlight + [ts] else s.inFlight)
    case BackendGivesUp => s.(backend := Down)
    case Resend => s.(inFlight := [s.inFlight[0]] + s.inFlight)
    case LinkDrops(kept) => s.(link := false, inFlight := s.inFlight[..kept])
    case BrokerReceives =>
      ApplyPublish(s, Online(s.session.value, s.inFlight[0])).(inFlight := s.inFlight[1..])
    case BrokerDetectsLoss => EndSession(s)
    case GuiConnects => s.(gui := Here(false, true, [], []))
    case GuiSubscribes =>
      s.(gui := s.gui.(subscribed := true, inbox := if s.retained.Some? then [s.retained.value] else []))
    case GuiConsumes =>
      var j := s.gui.inbox[0];
      s.(gui := s.gui.(inbox := s.gui.inbox[1..], seen := s.gui.seen + [j]),
         presence := if PresenceOf(Some(j)).Some? then PresenceOf(Some(j)).value else s.presence)
    case GuiRedelivery(from) => s.(gui := s.gui.(inbox := s.gui.seen[from..] + s.gui.inbox))
    case GuiLinkDrops(left) => s.(gui := s.gui.(live := false, inbox := s.gui.inbox[..left]))
    case GuiGivesUp => s.(gui := Clearing)
    case GuiClears => s.(gui := Away, presence := false)
  }

  predicate Run(s: State, ls: seq<Label>, t: State)
    decreases ls
  {
    if ls == [] then s == t
    else Enabled(s, ls[0]) && Run(Apply(s, ls[0]), ls[1..], t)
  }

  // The broker's log of presence publishes

  /** Sessions only grow along the log, and a will closes its session. */
  predicate Ordered(log: seq<Publish>) {
    forall i, j :: 0 <= i < j < |log| ==>
      log[i].session <= log[j].session && (log[i].Will? ==> log[i].session < log[j].session)
  }

  predicate LastIsWill(log: seq<Publish>) { log == [] || log[|log| - 1].Will? }

  predicate LastIsOnline(log: seq<Publish>, session: nat) {
    log != [] && log[|log| - 1].Online? && log[|log| - 1].session == session
  }

  /** The log against the session the broker holds: a held session is the newest and its
      will is not in the log; without one, the log ends in a will. */
  predicate LogFits(s: State) {
    && Ordered(s.applied)
    && (s.session.None? ==> LastIsWill(s.applied) && s.inFlight == [] && !s.link)
    && (s.session.Some? ==> s.next == s.session.value + 1)
    && (forall p :: p in s.applied ==>
          p.session < s.next && (p.Will? && s.session.Some? ==> p.session < s.session.value))
    && (s.session.Some? ==> LastIsWill(s.applied) || LastIsOnline(s.applied, s.session.value))
    && s.retained == if s.applied == [] then None else Some(Payload(s.applied[|s.applied| - 1]))
  }

  /** The backend against the broker: its session is the one held unless the broker has
      ended it, and on a working link its announcement is under way or last in the log. */
  predicate BackendFits(s: State) {
    s.backend.Up? ==>
      && (s.session.Some? ==> s.session.value == s.backend.session)
      && (s.backend.announced && s.link ==> s.inFlight != [] || LastIsOnline(s.applied, s.backend.session))
  }

  lemma {:induction false} OrderedSnoc(log: seq<Publish>, p: Publish)
    requires Ordered(log)
    requires forall q :: q in log ==> q.session <= p.session && (q.Will? ==> q.session < p.session)
    ensures Ordered(log + [p])
  {
    forall i, j | 0 <= i < j < |log + [p]|
      ensures (log + [p])[i].session <= (log + [p])[j].session
      ensures (log + [p])[i].Will? ==> (log + [p])[i].session < (log + [p])[j].session
    {
      if j == |log| { assert log[i] in log; }
    }
  }

  lemma PublishFits(s: State, p: Publish)
    requires LogFits(s) && s.session == Some(p.session)
    ensures Ordered(ApplyPublish(s, p).applied)
    ensures forall q :: q in ApplyPublish(s, p).applied ==>
              q.session <= p.session && (q.Will? ==> q == p || q.session < p.session)
  {
    OrderedSnoc(s.applied, p);
  }

  lemma EndFits(s: State)
    requires LogFits(s)
    ensures LogFits(EndSession(s))
  {
    if s.session.Some? { PublishFits(s, Will(s.session.value, s.heldWill)); }
  }

  lemma StepLog(s: State, l: Label)
    requires LogFits(s) && Enabled(s, l)
    ensures LogFits(Apply(s, l))
  {
    match l
    case BackendConnects => EndFits(s);
    case ConnackLost => EndFits(s);
    case BrokerDetectsLoss => EndFits(s);
    case BrokerReceives => PublishFits(s, Online(s.session.value, s.inFlight[0]));
    case _ =>
  }

  lemma StepBackend(s: State, l: Label)
    requires LogFits(s) && BackendFits(s) && Enabled(s, l)
    ensures BackendFits(Apply(s, l))
  {}

  // The GUI's view

  predicate Announces(j: Json) { PresenceOf(Some(j)).Some? }

  predicate Shows(j: Json) { PresenceOf(Some(j)) == Some(true) }

  /** Presence after the messages still to be consumed. */
  function Folded(inbox: seq<Json>, presence: bool): bool {
    if inbox == [] then presence else Shows(inbox[|inbox| - 1])
  }

  function RetainedOnline(s: State): bool { s.retained.Some? && Shows(s.retained.value) }

  /** Folding what is under way over the flag yields what the broker retains, and the flag is
      the last message seen. */
  predicate GuiFits(s: State) {
    && (s.gui.Away? ==> !s.presence)
    && (s.gui.Here? ==>
          && (!s.gui.subscribed ==> s.gui.inbox == [] && s.gui.seen == [])
          && (forall j :: j in s.gui.inbox ==> Announces(j))
          && (forall j :: j in s.gui.seen ==> Announces(j))
          && s.presence == Folded(s.gui.seen, false)
          && (s.gui.subscribed && s.gui.live ==> Folded(s.gui.inbox, s.presence) == RetainedOnline(s)))
    && (s.retained.Some? ==> Announces(s.retained.value))
  }

  lemma PayloadsDecode(p: Publish)
    ensures Announces(Payload(p)) && Shows(Payload(p)) == p.Online?
  {}

  /** The payloads as the wire carries them. */
  lemma PayloadTexts(p: Publish)
    ensures At(Payload(p), "state") == Str(if p.Online? then "online" else "offline")
    ensures At(Payload(p), "ts") == Int(p.ts)
    ensures if p.Will? then At(Payload(p), "reason") == Str("lwt") else !Has(Payload(p), "reason")
  {
    assert "state"[0] == 's' && "ts"[0] == 't' && "reason"[0] == 'r';
  }

  lemma PublishGui(s: State, p: Publish)
    requires GuiFits(s)
    ensures GuiFits(ApplyPublish(s, p))
  {
    PayloadsDecode(p);
  }

  lemma EndGui(s: State)
    requires GuiFits(s)
    ensures GuiFits(EndSession(s))
  {
    if s.session.Some? { PublishGui(s, Will(s.session.value, s.heldWill)); }
  }

  lemma RedeliveryGui(s: State, from: nat)
    requires GuiFits(s) && Enabled(s, GuiRedelivery(from))
    ensures GuiFits(Apply(s, GuiRedelivery(from)))
  {
    var seen, inbox := s.gui.seen, s.gui.inbox;
    forall j | j in seen[from..] + inbox ensures Announces(j) {
      assert j in seen[from..] ==> j in seen;
    }
  }

  lemma ConsumeGui(s: State)
    requires GuiFits(s) && Enabled(s, GuiConsumes)
    ensures GuiFits(Apply(s, GuiConsumes))
  {
    var j := s.gui.inbox[0];
    assert j in s.gui.inbox;
    assert forall i :: i in s.gui.inbox[1..] ==> i in s.gui.inbox;
  }

  lemma StepGui(s: State, l: Label)
    requires GuiFits(s) && Enabled(s, l)
    ensures GuiFits(Apply(s, l))
  {
    match l
    case BackendConnects => EndGui(s);
    case ConnackLost => EndGui(s);
    case BrokerDetectsLoss => EndGui(s);
    case BrokerReceives => PublishGui(s, Online(s.session.value, s.inFlight[0]));
    case GuiConsumes => ConsumeGui(s);
    case GuiRedelivery(from) => RedeliveryGui(s, from);
    case _ =>
  }

  // Over whole runs

  predicate Fits(s: State) { LogFits(s) && BackendFits(s) && GuiFits(s) }

  lemma {:induction false} AlwaysFits(s: State, ls: seq<Label>, t: State)
    requires Fits(s) && Run(s, ls, t)
    ensures Fits(t)
    decreases ls
  {
    if ls != [] {
      StepLog(s, ls[0]);
      StepBackend(s, ls[0]);
      StepGui(s, ls[0]);
      AlwaysFits(Apply(s, ls[0]), ls[1..], t);
    }
  }

  /** No stale will: after session k's online, only wills of session k or later are applied,
      and nothing of a session follows its own will. */
  lemma NoStaleWill(willTs: int, ls: seq<Label>, t: State, i: nat, j: nat)
    requires Run(Init(willTs), ls, t) && i < j < |t.applied|
    ensures t.applied[j].session >= t.applied[i].session
    ensures t.applied[i].Will? ==> t.applied[j].session > t.applied[i].session
  {
    AlwaysFits(Init(willTs), ls, t);
  }

  /** Retained "online" always belongs to the newest session, still held by the broker. */
  lemma RetainedOnlineIsNewest(willTs: int, ls: seq<Label>, t: State)
    requires Run(Init(willTs), ls, t)
    ensures RetainedOnline(t) <==>
            t.session.Some? && t.session.value == t.next - 1 && LastIsOnline(t.applied, t.session.value)
  {
    AlwaysFits(Init(willTs), ls, t);
    if t.applied != [] { PayloadsDecode(t.applied[|t.applied| - 1]); }
  }

  /** Agreement: a subscribed GUI on a live link whose inbox is drained shows exactly what the
      broker retains, over any number of drops and reconnections on either side. */
  lemma PresenceAgreement(willTs: int, ls: seq<Label>, t: State)
    requires Run(Init(willTs), ls, t)
    requires t.gui.Here? && t.gui.subscribed && t.gui.live && t.gui.inbox == []
    ensures t.presence == RetainedOnline(t)
  {
    AlwaysFits(Init(willTs), ls, t);
  }

  /** End to end: such a GUI shows online when the backend is connected, has announced itself
      and its link is drained, and offline once the broker has noticed the backend's loss. */
  lemma GuiTracksBackend(willTs: int, ls: seq<Label>, t: State)
    requires Run(Init(willTs), ls, t)
    requires t.gui.Here? && t.gui.subscribed && t.gui.live && t.gui.inbox == []
    ensures t.backend.Up? && t.backend.announced && t.link && t.inFlight == [] ==> t.presence
    ensures t.session.None? ==> !t.presence
    ensures t.presence ==> t.session.Some? && LastIsOnline(t.applied, t.session.value)
  {
    AlwaysFits(Init(willTs), ls, t);
    if t.applied != [] { PayloadsDecode(t.applied[|t.applied| - 1]); }
  }

  /** Once a session's end has cleared both flags, and until the next, the GUI shows offline. */
  lemma AwayIsOffline(willTs: int, ls: seq<Label>, t: State)
    requires Run(Init(willTs), ls, t) && t.gui.Away?
    ensures !t.presence
  {
    AlwaysFits(Init(willTs), ls, t);
  }

  // Why the live link is needed

  /** One more step at the end of a run. */
  lemma RunThen(o: State, ls: seq<Label>, s: State, l: Label) returns (more: seq<Label>, t: State)
    requires Run(o, ls, s) && Enabled(s, l)
    ensures more == ls + [l] && t == Apply(s, l) && Run(o, more, t)
  {
    more, t := ls + [l], Apply(s, l);
    RunSnoc(o, ls, s, l);
  }

  lemma {:induction false} RunSnoc(o: State, ls: seq<Label>, s: State, l: Label)
    requires Run(o, ls, s) && Enabled(s, l)
    ensures Run(o, ls + [l], Apply(s, l))
    decreases ls
  {
    if ls == [] {
      assert [l][1..] == [];
    } else {
      RunSnoc(Apply(o, ls[0]), ls[1..], s, l);
      assert (ls + [l])[1..] == ls[1..] + [l];
    }
  }

  /** The backend connects afresh and announces itself, taking over from any earlier session. */
  lemma BackendAnnounces(s: State, ts: int) returns (ls: seq<Label>, t: State)
    requires s.gui.Here? && !s.gui.live
    ensures Run(s, ls, t) && t.gui == s.gui && t.presence == s.presence && RetainedOnline(t)
  {
    ls, t := [], s;
    if s.backend.Up? { ls, t := RunThen(s, ls, t, BackendGivesUp); }
    ls, t := RunThen(s, ls, t, BackendConnects);
    ls, t := RunThen(s, ls, t, BackendPublishes(ts));
    ls, t := RunThen(s, ls, t, BrokerReceives);
    PayloadsDecode(t.applied[|t.applied| - 1]);
  }

  /** Behind a dead link the broker can always come to retain what the GUI does not show. */
  lemma DeadLinkDisagrees(s: State, ts: int) returns (ls: seq<Label>, t: State)
    requires Fits(s) && s.gui.Here? && !s.gui.live
    ensures Run(s, ls, t) && t.gui == s.gui && t.presence == s.presence
    ensures t.presence != RetainedOnline(t)
  {
    if !s.presence {
      ls, t := BackendAnnounces(s, ts);
    } else {
      ls, t := [], s;
      if s.session.Some? { ls, t := RunThen(s, ls, t, BrokerDetectsLoss); }
      if t.applied != [] { PayloadsDecode(t.applied[|t.applied| - 1]); }
    }
  }

  /** Agreement however the world moves on, as long as the GUI itself does not. */
  ghost predicate AgreesThroughout(s: State) {
    forall ls: seq<Label>, t: State ::
      Run(s, ls, t) && t.gui == s.gui && t.presence == s.presence ==> t.presence == RetainedOnline(t)
  }

  /** The live link is exactly what guarantees agreement: a subscribed and drained GUI agrees
      with the broker whatever the rest of the world does if and only if its link is live. */
  lemma LiveIsExact(willTs: int, before: seq<Label>, s: State)
    requires Run(Init(willTs), before, s)
    requires s.gui.Here? && s.gui.subscribed && s.gui.inbox == []
    ensures s.gui.live <==> AgreesThroughout(s)
  {
    AlwaysFits(Init(willTs), before, s);
    if s.gui.live {
      forall ls: seq<Label>, t: State | Run(s, ls, t) && t.gui == s.gui && t.presence == s.presence
        ensures t.presence == RetainedOnline(t)
      {
        AlwaysFits(s, ls, t);
      }
    } else {
      var ls, t := DeadLinkDisagrees(s, 0);
    }
  }

  /** Dead and drained is a state that occurs: a run to it, in which the GUI shows offline and
      the broker has come to retain online. */
  lemma StaleOnDeadLink(willTs: int, ts: int) returns (ls: seq<Label>, t: State)
    ensures Run(Init(willTs), ls, t)
    ensures t.gui.Here? && t.gui.subscribed && t.gui.inbox == [] && t.presence != RetainedOnline(t)
  {
    var o := Init(willTs);
    ls, t := RunThen(o, [], o, GuiConnects);
    ls, t := RunThen(o, ls, t, GuiSubscribes);
    ls, t := RunThen(o, ls, t, GuiLinkDrops(0));
    ls, t := RunThen(o, ls, t, BackendConnects);
    ls, t := RunThen(o, ls, t, BackendPublishes(ts));
    ls, t := RunThen(o, ls, t, BrokerReceives);
    PayloadsDecode(Online(0, ts));
  }
}
