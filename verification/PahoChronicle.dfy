/** What the window is told about pings and acknowledgements, against the schedule itself: every
    round-trip time is the difference of two clocks of the run, every acknowledgement taken is
    passed on once, in order and as it was on the wire, and every ping entered is announced. */
module PahoChronicle {
  import opened Wrappers
  import opened JsonTree
  import opened GuiMessages
  import opened PahoMachine
  import opened PahoOwnership
  import opened PahoLedger

  // The acknowledgement on the wire

  function WireId(msg: Message): string {
    if msg.topic == Ack && msg.payload.Some? then QtString(msg.payload.value, "id", "") else ""
  }

  function WireKind(msg: Message): string
    requires msg.payload.Some?
  {
    QtString(msg.payload.value, "type", "")
  }

  predicate WireOk(msg: Message)
    requires msg.payload.Some?
  {
    QtBool(msg.payload.value, "ok", false)
  }

  /** The worker takes an acknowledgement that names an id. */
  predicate TakesAck(s: State, l: Label) {
    && l.WorkerStep? && s.worker.Thread? && s.worker.pc == OnSession(Consume)
    && l.outcome.Delivers? && WireId(l.outcome.msg) != ""
  }

  // Clocks of a run

  /** `entered` holds the clock of the step that put each ping in the table, `answered` the
      clock of the delivery that settled it. */
  datatype Clocks = Clocks(entered: map<PingId, int>, answered: map<PingId, int>)

  function Ticked(c: Clocks, s: State, l: Label): Clocks {
    match l
    case UiStep(_, now) =>
      if s.ui.OnPing? && s.ui.pingPc == PingInsert then c.(entered := c.entered[s.ui.ping := now]) else c
    case WorkerStep(o) =>
      if TakesAck(s, l) && WireId(o.msg) in s.pending
      then c.(answered := c.answered[WireId(o.msg) := o.now]) else c
    case _ => c
  }

  function ClocksOf(c: Clocks, s: State, ls: seq<Label>): Clocks
    decreases ls
  {
    if ls == [] || !Enabled(s, ls[0]) then c
    else ClocksOf(Ticked(c, s, ls[0]), Apply(s, ls[0]), ls[1..])
  }

  /** What a ping update may say: pending and timed out carry no time, and a pong carries the
      time between entry and answer, never less than zero. */
  predicate Form(e: Event, c: Clocks)
    requires e.PingUpdated?
  {
    && e.id in c.entered
    && (e.timeout ==> e.rtt == -1)
    && (!e.timeout && e.rtt != -1 ==>
          e.id in c.answered && e.rtt == Max(0, c.answered[e.id] - c.entered[e.id]))
  }

  predicate Formed(es: seq<Event>, c: Clocks) { forall e :: e in es && e.PingUpdated? ==> Form(e, c) }

  predicate Clocked(s: State, c: Clocks) {
    && c.entered.Keys == s.ledger.inserted && c.answered.Keys == s.ledger.ponged
    && (forall id :: id in s.pending ==> id in c.entered && s.pending[id] == c.entered[id])
    && (s.ui.OnPing? && s.ui.pingPc == PingPending ==> s.ui.ping in c.entered)
    && Formed(s.posted, c) && Formed(s.uiOut, c) && Formed(s.wOut, c)
  }

  lemma PlainFormed(es: seq<Event>, c: Clocks)
    requires Plain(es)
    ensures Formed(es, c)
  {}

  lemma EntryFormed(es: seq<Event>, c: Clocks, id: PingId, now: int)
    requires Formed(es, c) && id !in c.entered
    ensures Formed(es, c.(entered := c.entered[id := now]))
  {}

  lemma AnswerFormed(es: seq<Event>, c: Clocks, id: PingId, now: int)
    requires Formed(es, c) && id !in c.answered
    ensures Formed(es, c.(answered := c.answered[id := now]))
  {}

  lemma InsertClocked(s: State, c: Clocks, now: int)
    requires Fates(s) && Clocked(s, c) && s.ui.OnPing? && s.ui.pingPc == PingInsert
    ensures Clocked(PingNext(s, PingInsert, s.ui.ping, true, now), Ticked(c, s, UiStep(true, now)))
  {
    var id := s.ui.ping;
    EntryFormed(s.posted, c, id, now);
    EntryFormed(s.uiOut, c, id, now);
    EntryFormed(s.wOut, c, id, now);
    assert id !in s.pending.Keys;
  }

  lemma PingClocked(s: State, c: Clocks, ok: bool, now: int)
    requires Clocked(s, c) && s.ui.OnPing? && s.ui.pingPc != PingInsert && s.uiOut == []
    ensures Clocked(PingNext(s, s.ui.pingPc, s.ui.ping, ok, now), c)
  {}

  lemma EraseClocked(s: State, c: Clocks)
    requires Clocked(s, c) && s.ui.OnTimeout? && s.ui.timeoutPc == TimeoutErase
    ensures Clocked(TimeoutNext(s, TimeoutErase, s.ui.ping), c)
  {}

  lemma ReportClocked(s: State, c: Clocks)
    requires Fates(s) && Clocked(s, c) && s.ui.OnTimeout? && s.ui.timeoutPc.TimeoutReport?
    ensures Clocked(TimeoutNext(s, s.ui.timeoutPc, s.ui.ping), c)
  {}

  lemma FrameClocked(s: State, t: State, c: Clocks)
    requires Clocked(s, c) && UiFrame(s, t) && s.uiOut == []
    requires t.pending == s.pending || t.pending == map[]
    ensures Clocked(t, c)
  {
    PlainFormed(t.uiOut, c);
  }

  lemma StopTable(s: State)
    requires s.ui.OnStop?
    ensures var t := StopNext(s, s.ui.stopPc);
            UiFrame(s, t) && (t.pending == s.pending || t.pending == map[])
  {}

  lemma ConnectTable(s: State)
    requires s.ui.OnConnect?
    ensures ConnectNext(s, s.ui.connectPc).pending == s.pending
  {}

  lemma UiClocked(s: State, c: Clocks, ok: bool, now: int)
    requires Fates(s) && Clocked(s, c) && s.uiOut == [] && s.ui != Idle
    ensures Clocked(UiNext(s, ok, now), Ticked(c, s, UiStep(ok, now)))
  {
    match s.ui
    case OnPing(pc, _) => if pc == PingInsert { InsertClocked(s, c, now); } else { PingClocked(s, c, ok, now); }
    case OnTimeout(pc, _) => if pc == TimeoutErase { EraseClocked(s, c); } else { ReportClocked(s, c); }
    case OnStop(pc) => StopTable(s); FrameClocked(s, StopNext(s, pc), c);
    case OnConnect(pc) => ConnectTable(s); FrameClocked(s, ConnectNext(s, pc), c);
  }

  lemma SettleClocked(s: State, c: Clocks, ack: AckBody, now: int)
    requires Fates(s) && Clocked(s, c) && s.worker.Thread? && ack.id in s.pending
    ensures Clocked(SettleAck(s, ack, now), c.(answered := c.answered[ack.id := now]))
  {
    assert ack.id in s.pending.Keys;
    AnswerFormed(s.posted, c, ack.id, now);
    AnswerFormed(s.uiOut, c, ack.id, now);
  }

  /** An event that tells of no ping fits any clocks. */
  lemma StrayClocked(s: State, t: State, c: Clocks)
    requires Clocked(s, c) && WorkerFrame(s, t) && t.pending == s.pending && t.ledger == s.ledger
    requires forall e :: e in t.wOut ==> !e.PingUpdated?
    ensures Clocked(t, c)
  {}

  lemma DispatchClocked(s: State, c: Clocks, msg: Message, now: int)
    requires Fates(s) && Clocked(s, c) && s.worker.Thread? && s.wOut == []
    ensures Clocked(Dispatch(s, msg, now),
                    if WireId(msg) != "" && WireId(msg) in s.pending
                    then c.(answered := c.answered[WireId(msg) := now]) else c)
  {
    if WireId(msg) != "" && WireId(msg) in s.pending {
      SettleClocked(s, c, AckOf(msg.payload).value, now);
    } else {
      StrayClocked(s, Dispatch(s, msg, now), c);
    }
  }

  lemma MoveClocked(s: State, t: State, c: Clocks)
    requires Clocked(s, c) && t == s.(worker := t.worker)
    ensures Clocked(t, c)
  {}

  lemma ConsumeClocked(s: State, c: Clocks, o: Outcome)
    requires Fates(s) && Clocked(s, c) && s.wOut == []
    requires s.worker.Thread? && s.worker.pc == OnSession(Consume)
    ensures Clocked(ConsumeNext(s, o), Ticked(c, s, WorkerStep(o)))
  {
    if o.Delivers? {
      DispatchClocked(s, c, o.msg, o.now);
      MoveClocked(Dispatch(s, o.msg, o.now), ConsumeNext(s, o), Ticked(c, s, WorkerStep(o)));
    } else {
      MoveClocked(s, ConsumeNext(s, o), c);
    }
  }

  lemma WorkerClocked(s: State, t: State, c: Clocks)
    requires Clocked(s, c) && WorkerFrame(s, t) && TableFrame(s, t) && s.wOut == []
    ensures Clocked(t, c)
  {
    PlainFormed(t.wOut, c);
  }

  lemma PostClocked(s: State, c: Clocks, l: Label)
    requires Clocked(s, c) && Enabled(s, l) && (l.UiPost? || l.WorkerPost?)
    ensures Clocked(Apply(s, l), c)
  {
    var out := if l.UiPost? then s.uiOut else s.wOut;
    assert out[0] in out && forall e :: e in out[1..] ==> e in out;
  }

  lemma StepClocked(s: State, c: Clocks, l: Label)
    requires Fates(s) && Clocked(s, c) && Enabled(s, l)
    ensures Clocked(Apply(s, l), Ticked(c, s, l))
  {
    match l
    case UiPost => PostClocked(s, c, l);
    case WorkerPost => PostClocked(s, c, l);
    case UiStep(ok, now) => UiClocked(s, c, ok, now);
    case WorkerStep(o) =>
      if s.worker.pc == OnSession(Consume) { ConsumeClocked(s, c, o); } else { WorkerClocked(s, WorkerNext(s, o), c); }
    case _ =>
  }

  lemma {:induction false} RunClocked(s: State, ls: seq<Label>, t: State, c: Clocks)
    requires Own(s) && Fates(s) && Clocked(s, c) && Run(s, ls, t)
    ensures Clocked(t, ClocksOf(c, s, ls))
    decreases ls
  {
    if ls != [] {
      StepClocked(s, c, ls[0]);
      StepOwn(s, ls[0]);
      StepFates(s, ls[0]);
      RunClocked(Apply(s, ls[0]), ls[1..], t, Ticked(c, s, ls[0]));
    }
  }

  const NO_CLOCKS: Clocks := Clocks(map[], map[])

  /** Every ping update ever posted says what the clocks of the schedule say: a pong the time
      from the step that entered the ping to the delivery that answered it. */
  lemma PongTimes(ls: seq<Label>, t: State, e: Event)
    requires Run(Init(), ls, t) && e in t.posted && e.PingUpdated?
    ensures Form(e, ClocksOf(NO_CLOCKS, Init(), ls))
  {
    InitBalanced();
    RunClocked(Init(), ls, t, NO_CLOCKS);
  }

  // Events of one kind, in order

  function Filter(es: seq<Event>, keep: Event -> bool): seq<Event> {
    if es == [] then []
    else Filter(es[..|es| - 1], keep) + if keep(es[|es| - 1]) then [es[|es| - 1]] else []
  }

  lemma {:induction false} FilterConcat(a: seq<Event>, b: seq<Event>, keep: Event -> bool)
    ensures Filter(a + b, keep) == Filter(a, keep) + Filter(b, keep)
  {
    if b == [] {
      assert a + b == a;
    } else {
      assert (a + b)[..|a + b| - 1] == a + b[..|b| - 1];
      FilterConcat(a, b[..|b| - 1], keep);
    }
  }

  lemma {:induction false} FilterNone(es: seq<Event>, keep: Event -> bool)
    requires forall e :: e in es ==> !keep(e)
    ensures Filter(es, keep) == []
  {
    if es != [] {
      assert es[|es| - 1] in es && forall e :: e in es[..|es| - 1] ==> e in es;
      FilterNone(es[..|es| - 1], keep);
    }
  }

  lemma FilterLast(es: seq<Event>, e: Event, keep: Event -> bool)
    requires keep(e)
    ensures Filter(es + [e], keep) == Filter(es, keep) + [e]
  {
    assert (es + [e])[..|es|] == es;
  }

  /** Events of other kinds at a seam do not show. */
  lemma FilterSkips(a: seq<Event>, x: seq<Event>, b: seq<Event>, keep: Event -> bool)
    requires forall e :: e in x ==> !keep(e)
    ensures Filter(a + x + b, keep) == Filter(a + b, keep)
  {
    FilterConcat(a + x, b, keep);
    FilterConcat(a, x, keep);
    FilterConcat(a, b, keep);
    FilterNone(x, keep);
    assert Filter(a, keep) + [] == Filter(a, keep);
  }

  // Acknowledgements

  predicate IsAckEvent(e: Event) { e.AckReceived? }

  /** How the window should hear of an acknowledgement: its own id, ok and kind, with "ping"
      standing in for the missing kind of one that settles a ping. */
  function Passing(s: State, msg: Message): Event
    requires msg.payload.Some?
  {
    var kind := if WireKind(msg) == "" && WireId(msg) in s.pending then "ping" else WireKind(msg);
    AckReceived(kind, WireId(msg), WireOk(msg))
  }

  /** The acknowledgements taken over a run. */
  function Heard(acks: seq<Event>, s: State, l: Label): seq<Event> {
    if TakesAck(s, l) then acks + [Passing(s, l.outcome.msg)] else acks
  }

  function AcksHeard(acks: seq<Event>, s: State, ls: seq<Label>): seq<Event>
    decreases ls
  {
    if ls == [] || !Enabled(s, ls[0]) then acks
    else AcksHeard(Heard(acks, s, ls[0]), Apply(s, ls[0]), ls[1..])
  }

  predicate AcksTold(s: State, acks: seq<Event>) {
    && Filter(s.posted + s.wOut, IsAckEvent) == acks
    && forall e :: e in s.uiOut ==> !e.AckReceived?
  }

  /** The UI thread tells of no acknowledgement. */
  predicate NoAck(s: State, t: State) {
    t.posted == s.posted && t.wOut == s.wOut && forall e :: e in t.uiOut ==> !e.AckReceived?
  }

  lemma FrameNoAck(s: State, t: State)
    requires UiFrame(s, t) && s.uiOut == []
    ensures NoAck(s, t)
  {}

  lemma PingNoAck(s: State, ok: bool, now: int)
    requires s.uiOut == [] && s.ui.OnPing?
    ensures NoAck(s, PingNext(s, s.ui.pingPc, s.ui.ping, ok, now))
  {}

  lemma TimeoutNoAck(s: State)
    requires s.uiOut == [] && s.ui.OnTimeout?
    ensures NoAck(s, TimeoutNext(s, s.ui.timeoutPc, s.ui.ping))
  {}

  lemma UiNoAck(s: State, ok: bool, now: int)
    requires s.uiOut == [] && s.ui != Idle
    ensures NoAck(s, UiNext(s, ok, now))
  {
    match s.ui
    case OnStop(pc) => StopTable(s); FrameNoAck(s, StopNext(s, pc));
    case OnConnect(pc) => FrameNoAck(s, ConnectNext(s, pc));
    case OnPing(_, _) => PingNoAck(s, ok, now);
    case OnTimeout(_, _) => TimeoutNoAck(s);
  }

  /** The reader of acknowledgements takes what is on the wire. */
  lemma WireIsRead(msg: Message)
    ensures WireId(msg) != "" <==> msg.topic == Ack && AckOf(msg.payload).Some?
    ensures WireId(msg) != "" ==> AckOf(msg.payload) == Some(AckBody(WireId(msg), WireOk(msg), WireKind(msg)))
  {}

  /** The last signal of an acknowledgement is its own, and no other is of its kind. */
  predicate EndsWith(out: seq<Event>, e: Event) {
    && out != [] && out[|out| - 1] == e
    && forall x :: x in out[..|out| - 1] ==> !x.AckReceived?
  }

  lemma SettleTail(s: State, ack: AckBody, now: int)
    requires s.worker.Thread?
    ensures var kind := if ack.kind == "" && ack.id in s.pending then "ping" else ack.kind;
            EndsWith(SettleAck(s, ack, now).wOut, AckReceived(kind, ack.id, ack.ok))
  {}

  lemma DispatchTail(s: State, msg: Message, now: int)
    requires s.wOut == [] && s.worker.Thread?
    ensures WireId(msg) == "" ==> forall e :: e in Dispatch(s, msg, now).wOut ==> !e.AckReceived?
    ensures WireId(msg) != "" ==> EndsWith(Dispatch(s, msg, now).wOut, Passing(s, msg))
  {
    WireIsRead(msg);
    if WireId(msg) != "" { SettleTail(s, AckOf(msg.payload).value, now); }
  }

  lemma TailTells(posted: seq<Event>, out: seq<Event>, e: Event)
    requires e.AckReceived? && EndsWith(out, e)
    ensures Filter(posted + out, IsAckEvent) == Filter(posted, IsAckEvent) + [e]
  {
    var before := out[..|out| - 1];
    assert posted + out == posted + before + [e];
    FilterLast(posted + before, e, IsAckEvent);
    FilterConcat(posted, before, IsAckEvent);
    FilterNone(before, IsAckEvent);
    assert Filter(posted, IsAckEvent) + [] == Filter(posted, IsAckEvent);
  }

  lemma DispatchTells(s: State, msg: Message, now: int, acks: seq<Event>)
    requires AcksTold(s, acks) && s.wOut == [] && s.worker.Thread?
    ensures AcksTold(Dispatch(s, msg, now), if WireId(msg) == "" then acks else acks + [Passing(s, msg)])
  {
    DispatchTail(s, msg, now);
    var t := Dispatch(s, msg, now);
    assert s.posted + s.wOut == s.posted;
    if WireId(msg) == "" {
      FilterConcat(s.posted, t.wOut, IsAckEvent);
      FilterNone(t.wOut, IsAckEvent);
      assert acks + [] == acks;
    } else {
      TailTells(s.posted, t.wOut, Passing(s, msg));
    }
  }

  lemma ConsumeTells(s: State, o: Outcome, acks: seq<Event>)
    requires AcksTold(s, acks) && s.wOut == [] && s.worker.Thread? && s.worker.pc == OnSession(Consume)
    ensures AcksTold(ConsumeNext(s, o), Heard(acks, s, WorkerStep(o)))
  {
    if o.Delivers? { DispatchTells(s, o.msg, o.now, acks); }
  }

  lemma PlainTells(s: State, t: State, acks: seq<Event>)
    requires AcksTold(s, acks) && s.wOut == [] && WorkerFrame(s, t) && Plain(t.wOut)
    ensures AcksTold(t, acks)
  {
    FilterConcat(s.posted, t.wOut, IsAckEvent);
    FilterNone(t.wOut, IsAckEvent);
    assert s.posted + s.wOut == s.posted && acks + [] == acks;
  }

  lemma WorkerTells(s: State, o: Outcome, acks: seq<Event>)
    requires AcksTold(s, acks) && s.wOut == [] && s.worker.Thread?
    ensures AcksTold(WorkerNext(s, o), Heard(acks, s, WorkerStep(o)))
  {
    if s.worker.pc == OnSession(Consume) { ConsumeTells(s, o, acks); } else { PlainTells(s, WorkerNext(s, o), acks); }
  }

  lemma StepTells(s: State, l: Label, acks: seq<Event>)
    requires AcksTold(s, acks) && Enabled(s, l)
    ensures AcksTold(Apply(s, l), Heard(acks, s, l))
  {
    match l
    case UiPost =>
      assert s.uiOut[0] in s.uiOut && forall e :: e in s.uiOut[1..] ==> e in s.uiOut;
      FilterSkips(s.posted, [s.uiOut[0]], s.wOut, IsAckEvent);
    case WorkerPost => assert s.posted + [s.wOut[0]] + s.wOut[1..] == s.posted + s.wOut;
    case UiStep(ok, now) => UiNoAck(s, ok, now);
    case WorkerStep(o) => WorkerTells(s, o, acks);
    case _ =>
  }

  lemma {:induction false} RunTells(s: State, ls: seq<Label>, t: State, acks: seq<Event>)
    requires AcksTold(s, acks) && Run(s, ls, t)
    ensures AcksTold(t, AcksHeard(acks, s, ls))
    decreases ls
  {
    if ls != [] {
      StepTells(s, ls[0], acks);
      RunTells(Apply(s, ls[0]), ls[1..], t, Heard(acks, s, ls[0]));
    }
  }

  /** The acknowledgement signals posted or owed are the in-order image of those taken. */
  lemma AcksPassedOn(ls: seq<Label>, t: State)
    requires Run(Init(), ls, t)
    ensures Filter(t.posted + t.wOut, IsAckEvent) == AcksHeard([], Init(), ls)
  {
    RunTells(Init(), ls, t, []);
  }

  // Pings announced

  predicate IsPendingEvent(e: Event) { e.PingUpdated? && !e.timeout && e.rtt == -1 }

  /** The pings put in the table, in order, each as the window should hear that it is pending. */
  function Entry(pings: seq<Event>, s: State, l: Label): seq<Event> {
    if l.UiStep? && s.ui.OnPing? && s.ui.pingPc == PingInsert then pings + [PingUpdated(s.ui.ping, -1, false)]
    else pings
  }

  function Entries(pings: seq<Event>, s: State, ls: seq<Label>): seq<Event>
    decreases ls
  {
    if ls == [] || !Enabled(s, ls[0]) then pings
    else Entries(Entry(pings, s, ls[0]), Apply(s, ls[0]), ls[1..])
  }

  /** The announcement the UI thread is about to make. */
  function Announcing(ui: UiPc): seq<Event> {
    if ui.OnPing? && ui.pingPc == PingPending then [PingUpdated(ui.ping, -1, false)] else []
  }

  predicate Announced(s: State, pings: seq<Event>) {
    && Filter(s.posted + s.uiOut, IsPendingEvent) + Announcing(s.ui) == pings
    && forall e :: e in s.wOut ==> !IsPendingEvent(e)
  }

  lemma PendingAnnounces(s: State, ok: bool, now: int, pings: seq<Event>)
    requires Announced(s, pings) && s.uiOut == [] && s.ui.OnPing? && s.ui.pingPc == PingPending
    ensures Announced(PingNext(s, PingPending, s.ui.ping, ok, now), pings)
  {
    assert s.posted + s.uiOut == s.posted;
    FilterLast(s.posted, PingUpdated(s.ui.ping, -1, false), IsPendingEvent);
  }

  lemma PingAnnounces(s: State, ok: bool, now: int, pings: seq<Event>)
    requires Announced(s, pings) && s.uiOut == [] && s.ui.OnPing? && s.ui.pingPc != PingPending
    ensures Announced(PingNext(s, s.ui.pingPc, s.ui.ping, ok, now), Entry(pings, s, UiStep(ok, now)))
  {}

  /** A tray without pending updates leaves the announcements as they are. */
  lemma TrayAnnounces(s: State, t: State, pings: seq<Event>)
    requires Announced(s, pings) && s.uiOut == [] && t.posted == s.posted && t.wOut == s.wOut
    requires Announcing(s.ui) == Announcing(t.ui) && forall e :: e in t.uiOut ==> !IsPendingEvent(e)
    ensures Announced(t, pings)
  {
    FilterSkips(s.posted, t.uiOut, [], IsPendingEvent);
    assert s.posted + t.uiOut + [] == s.posted + t.uiOut && s.posted + [] == s.posted;
  }

  lemma FramedTray(s: State, t: State, pings: seq<Event>)
    requires Announced(s, pings) && s.uiOut == [] && UiFrame(s, t) && !s.ui.OnPing?
    ensures Announced(t, pings)
  {
    PlainSaysNone(t.uiOut);
    TrayAnnounces(s, t, pings);
  }

  lemma PlainSaysNone(out: seq<Event>)
    requires Plain(out)
    ensures forall e :: e in out ==> !IsPendingEvent(e)
  {}

  lemma TimeoutAnnounces(s: State, pings: seq<Event>)
    requires Announced(s, pings) && s.uiOut == [] && s.ui.OnTimeout?
    ensures Announced(TimeoutNext(s, s.ui.timeoutPc, s.ui.ping), pings)
  {
    TrayAnnounces(s, TimeoutNext(s, s.ui.timeoutPc, s.ui.ping), pings);
  }

  lemma StopAnnounces(s: State, pings: seq<Event>)
    requires Announced(s, pings) && s.uiOut == [] && s.ui.OnStop?
    ensures Announced(StopNext(s, s.ui.stopPc), pings)
  {
    StopTable(s);
    FramedTray(s, StopNext(s, s.ui.stopPc), pings);
  }

  lemma ConnectAnnounces(s: State, pings: seq<Event>)
    requires Announced(s, pings) && s.uiOut == [] && s.ui.OnConnect?
    ensures Announced(ConnectNext(s, s.ui.connectPc), pings)
  {
    FramedTray(s, ConnectNext(s, s.ui.connectPc), pings);
  }

  lemma AnyPingAnnounces(s: State, ok: bool, now: int, pings: seq<Event>)
    requires Announced(s, pings) && s.uiOut == [] && s.ui.OnPing?
    ensures Announced(PingNext(s, s.ui.pingPc, s.ui.ping, ok, now), Entry(pings, s, UiStep(ok, now)))
  {
    if s.ui.pingPc == PingPending { PendingAnnounces(s, ok, now, pings); } else { PingAnnounces(s, ok, now, pings); }
  }

  lemma UiAnnounces(s: State, ok: bool, now: int, pings: seq<Event>)
    requires Announced(s, pings) && s.uiOut == [] && s.ui != Idle
    ensures Announced(UiNext(s, ok, now), Entry(pings, s, UiStep(ok, now)))
  {
    match s.ui
    case OnPing(_, _) => AnyPingAnnounces(s, ok, now, pings);
    case OnTimeout(_, _) => TimeoutAnnounces(s, pings);
    case OnStop(_) => StopAnnounces(s, pings);
    case OnConnect(_) => ConnectAnnounces(s, pings);
  }

  lemma DispatchAnnouncesNothing(s: State, msg: Message, now: int)
    requires s.worker.Thread? && s.wOut == []
    ensures forall e :: e in Dispatch(s, msg, now).wOut ==> !IsPendingEvent(e)
  {}

  lemma ConsumeAnnouncesNothing(s: State, o: Outcome)
    requires s.worker.Thread? && s.wOut == []
    ensures forall e :: e in ConsumeNext(s, o).wOut ==> !IsPendingEvent(e)
  {
    if o.Delivers? { DispatchAnnouncesNothing(s, o.msg, o.now); }
  }

  lemma WorkerPostAnnounces(s: State, pings: seq<Event>)
    requires Announced(s, pings) && s.wOut != []
    ensures Announced(Apply(s, WorkerPost), pings)
  {
    assert s.wOut[0] in s.wOut && forall e :: e in s.wOut[1..] ==> e in s.wOut;
    FilterSkips(s.posted, [s.wOut[0]], s.uiOut, IsPendingEvent);
  }

  lemma UiPostAnnounces(s: State, pings: seq<Event>)
    requires Announced(s, pings) && s.uiOut != []
    ensures Announced(Apply(s, UiPost), pings)
  {
    assert s.posted + [s.uiOut[0]] + s.uiOut[1..] == s.posted + s.uiOut;
  }

  lemma FrameAnnounces(s: State, t: State, pings: seq<Event>)
    requires Announced(s, pings) && WorkerFrame(s, t) && forall e :: e in t.wOut ==> !IsPendingEvent(e)
    ensures Announced(t, pings)
  {}

  lemma WorkerAnnounces(s: State, o: Outcome, pings: seq<Event>)
    requires Announced(s, pings) && s.worker.Thread? && s.wOut == []
    ensures Announced(WorkerNext(s, o), pings)
  {
    if s.worker.pc == OnSession(Consume) {
      ConsumeAnnouncesNothing(s, o);
      FrameAnnounces(s, ConsumeNext(s, o), pings);
    } else {
      PlainSaysNone(WorkerNext(s, o).wOut);
      FrameAnnounces(s, WorkerNext(s, o), pings);
    }
  }

  lemma StepAnnounces(s: State, l: Label, pings: seq<Event>)
    requires Announced(s, pings) && Enabled(s, l)
    ensures Announced(Apply(s, l), Entry(pings, s, l))
  {
    match l
    case UiPost => UiPostAnnounces(s, pings);
    case WorkerPost => WorkerPostAnnounces(s, pings);
    case UiStep(ok, now) => UiAnnounces(s, ok, now, pings);
    case WorkerStep(o) => WorkerAnnounces(s, o, pings);
    case _ =>
  }

  lemma {:induction false} RunAnnounces(s: State, ls: seq<Label>, t: State, pings: seq<Event>)
    requires Announced(s, pings) && Run(s, ls, t)
    ensures Announced(t, Entries(pings, s, ls))
    decreases ls
  {
    if ls != [] {
      StepAnnounces(s, ls[0], pings);
      RunAnnounces(Apply(s, ls[0]), ls[1..], t, Entry(pings, s, ls[0]));
    }
  }

  /** The pending updates posted, owed or about to be owed are the pings entered, in order. */
  lemma PingsAnnounced(ls: seq<Label>, t: State)
    requires Run(Init(), ls, t)
    ensures Filter(t.posted + t.uiOut, IsPendingEvent) + Announcing(t.ui) == Entries([], Init(), ls)
  {
    RunAnnounces(Init(), ls, t, []);
  }

  // Pings entered

  /** The pings that found the client connected, and those whose publish returned. */
  datatype Trail = Trail(checked: set<PingId>, sent: set<PingId>)

  function Passed(h: Trail, s: State, l: Label): Trail {
    if !l.UiStep? || !s.ui.OnPing? then h
    else if s.ui.pingPc == PingCheck && s.client && s.connected then h.(checked := h.checked + {s.ui.ping})
    else if s.ui.pingPc == PingPublish && l.ok then h.(sent := h.sent + {s.ui.ping})
    else h
  }

  function TrailOf(h: Trail, s: State, ls: seq<Label>): Trail
    decreases ls
  {
    if ls == [] || !Enabled(s, ls[0]) then h
    else TrailOf(Passed(h, s, ls[0]), Apply(s, ls[0]), ls[1..])
  }

  predicate OnTrail(s: State, h: Trail) {
    && h.sent <= h.checked <= s.ledger.issued
    && s.ledger.inserted == h.sent - (if s.ui.OnPing? && s.ui.pingPc == PingInsert then {s.ui.ping} else {})
    && (s.ui.OnPing? ==> s.ui.ping in s.ledger.issued)
    && (s.ui.OnPing? && s.ui.pingPc != PingCheck ==> s.ui.ping in h.checked)
    && (s.ui.OnPing? && (s.ui.pingPc == PingCheck || s.ui.pingPc == PingPublish) ==> s.ui.ping !in h.sent)
    && (s.ui.OnPing? && s.ui.pingPc == PingInsert ==> s.ui.ping in h.sent)
  }

  lemma PingOnTrail(s: State, h: Trail, ok: bool, now: int)
    requires OnTrail(s, h) && s.ui.OnPing?
    ensures OnTrail(PingNext(s, s.ui.pingPc, s.ui.ping, ok, now), Passed(h, s, UiStep(ok, now)))
  {}

  /** Steps that enter no ping. */
  lemma OffTrail(s: State, t: State, h: Trail)
    requires OnTrail(s, h) && t.ledger.issued == s.ledger.issued && t.ledger.inserted == s.ledger.inserted
    requires t.ui == s.ui || (!s.ui.OnPing? && !t.ui.OnPing?)
    ensures OnTrail(t, h)
  {}

  lemma TimeoutOffTrail(s: State)
    requires s.ui.OnTimeout?
    ensures var t := TimeoutNext(s, s.ui.timeoutPc, s.ui.ping);
            !t.ui.OnPing? && t.ledger.issued == s.ledger.issued && t.ledger.inserted == s.ledger.inserted
  {}

  lemma UiOnTrail(s: State, h: Trail, ok: bool, now: int)
    requires OnTrail(s, h) && s.ui != Idle
    ensures OnTrail(UiNext(s, ok, now), Passed(h, s, UiStep(ok, now)))
  {
    match s.ui
    case OnPing(_, _) => PingOnTrail(s, h, ok, now);
    case OnTimeout(pc, id) => TimeoutOffTrail(s); OffTrail(s, TimeoutNext(s, pc, id), h);
    case OnStop(pc) => StopTable(s); OffTrail(s, StopNext(s, pc), h);
    case OnConnect(pc) => assert UiFrame(s, ConnectNext(s, pc)); OffTrail(s, ConnectNext(s, pc), h);
  }

  lemma DispatchOffTrail(s: State, msg: Message, now: int)
    requires s.worker.Thread?
    ensures var t := Dispatch(s, msg, now);
            t.ledger.issued == s.ledger.issued && t.ledger.inserted == s.ledger.inserted
  {}

  lemma ConsumeOffTrail(s: State, o: Outcome)
    requires s.worker.Thread?
    ensures var t := ConsumeNext(s, o);
            t.ledger.issued == s.ledger.issued && t.ledger.inserted == s.ledger.inserted
  {
    if o.Delivers? { DispatchOffTrail(s, o.msg, o.now); }
  }

  lemma StepOnTrail(s: State, h: Trail, l: Label)
    requires OnTrail(s, h) && Enabled(s, l)
    ensures OnTrail(Apply(s, l), Passed(h, s, l))
  {
    match l
    case UiStep(ok, now) => UiOnTrail(s, h, ok, now);
    case WorkerStep(o) =>
      if s.worker.pc == OnSession(Consume) { ConsumeOffTrail(s, o); }
      OffTrail(s, WorkerNext(s, o), h);
    case _ =>
  }

  lemma {:induction false} RunOnTrail(s: State, ls: seq<Label>, t: State, h: Trail)
    requires OnTrail(s, h) && Run(s, ls, t)
    ensures OnTrail(t, TrailOf(h, s, ls))
    decreases ls
  {
    if ls != [] {
      StepOnTrail(s, h, ls[0]);
      RunOnTrail(Apply(s, ls[0]), ls[1..], t, Passed(h, s, ls[0]));
    }
  }

  /** The pings entered are exactly those whose publish returned, but for the one in the gap,
      and each had found the client set and connected. */
  lemma EnteredExactly(ls: seq<Label>, t: State)
    requires Run(Init(), ls, t)
    ensures var h := TrailOf(Trail({}, {}), Init(), ls);
            && t.ledger.inserted == h.sent - (if t.ui.OnPing? && t.ui.pingPc == PingInsert then {t.ui.ping} else {})
            && h.sent <= h.checked
  {
    RunOnTrail(Init(), ls, t, Trail({}, {}));
  }
}
