/** When a ping is ponged, when it times out and when a stop drops it: exactly, for every run. */
module PahoPings {
  import opened Wrappers
  import JsonTree
  import opened GuiMessages
  import opened PahoMachine
  import opened PahoLedger
  import opened PahoRuns

  predicate IsAckFor(msg: Message, id: PingId) {
    msg.topic == Ack && AckOf(msg.payload).Some? && AckOf(msg.payload).value.id == id
  }

  /** The worker takes an acknowledgement of `id` while the ping is in the table. */
  predicate Answers(s: State, l: Label, id: PingId) {
    && l.WorkerStep? && s.worker.Thread? && s.worker.pc == OnSession(Consume)
    && l.outcome.Delivers? && IsAckFor(l.outcome.msg, id) && id in s.pending
  }

  predicate AnsweredInTime(s: State, ls: seq<Label>, id: PingId)
    decreases ls
  {
    && ls != [] && Enabled(s, ls[0])
    && (Answers(s, ls[0], id) || AnsweredInTime(Apply(s, ls[0]), ls[1..], id))
  }

  /** Stop empties the table while the ping is in it. */
  predicate Drops(s: State, l: Label, id: PingId) {
    l.UiStep? && s.ui == OnStop(StopClear) && id in s.pending
  }

  predicate DroppedByStop(s: State, ls: seq<Label>, id: PingId)
    decreases ls
  {
    && ls != [] && Enabled(s, ls[0])
    && (Drops(s, ls[0], id) || DroppedByStop(Apply(s, ls[0]), ls[1..], id))
  }

  // One step

  lemma SettleFates(s: State, ack: AckBody, now: int, id: PingId)
    requires s.worker.Thread?
    ensures var t := SettleAck(s, ack, now);
            && (id in t.ledger.ponged <==> id in s.ledger.ponged || (ack.id == id && id in s.pending))
            && t.ledger.cleared == s.ledger.cleared && t.ledger.inserted == s.ledger.inserted
  {}

  lemma DispatchFates(s: State, msg: Message, now: int, id: PingId)
    requires s.worker.Thread?
    ensures var t := Dispatch(s, msg, now);
            && (id in t.ledger.ponged <==> id in s.ledger.ponged || (IsAckFor(msg, id) && id in s.pending))
            && t.ledger.cleared == s.ledger.cleared && t.ledger.inserted == s.ledger.inserted
  {
    if msg.topic == Ack && AckOf(msg.payload).Some? { SettleFates(s, AckOf(msg.payload).value, now, id); }
  }

  lemma ConsumeStepFates(s: State, o: Outcome, id: PingId)
    requires s.worker.Thread? && s.worker.pc == OnSession(Consume)
    ensures var t := ConsumeNext(s, o);
            && (id in t.ledger.ponged <==> id in s.ledger.ponged || Answers(s, WorkerStep(o), id))
            && t.ledger.cleared == s.ledger.cleared && t.ledger.inserted == s.ledger.inserted
  {
    if o.Delivers? { DispatchFates(s, o.msg, o.now, id); }
  }

  lemma StopStepFates(s: State, id: PingId)
    requires s.ui.OnStop?
    ensures var t := StopNext(s, s.ui.stopPc);
            && t.ledger.ponged == s.ledger.ponged && t.ledger.inserted == s.ledger.inserted
            && (id in t.ledger.cleared <==>
                  id in s.ledger.cleared || (s.ui == OnStop(StopClear) && id in s.pending))
  {}

  /** The fates of `id` as one step changes them. */
  predicate FatesMove(s: State, l: Label, t: State, id: PingId) {
    && (id in t.ledger.ponged <==> id in s.ledger.ponged || Answers(s, l, id))
    && (id in t.ledger.cleared <==> id in s.ledger.cleared || Drops(s, l, id))
    && s.ledger.inserted <= t.ledger.inserted
  }

  lemma PingStepFates(s: State, ok: bool, now: int, id: PingId)
    requires s.ui.OnPing?
    ensures FatesMove(s, UiStep(ok, now), PingNext(s, s.ui.pingPc, s.ui.ping, ok, now), id)
  {}

  lemma UiStepFates(s: State, ok: bool, now: int, id: PingId)
    requires s.ui != Idle
    ensures FatesMove(s, UiStep(ok, now), UiNext(s, ok, now), id)
  {
    match s.ui
    case OnStop(_) => StopStepFates(s, id);
    case OnConnect(pc) => assert ConnectNext(s, pc).ledger == s.ledger;
    case OnPing(_, _) => PingStepFates(s, ok, now, id);
    case OnTimeout(_, _) =>
  }

  lemma FramedFates(s: State, o: Outcome, t: State, id: PingId)
    requires s.worker.Thread? && s.worker.pc != OnSession(Consume) && TableFrame(s, t)
    ensures FatesMove(s, WorkerStep(o), t, id)
  {}

  lemma WorkerStepFates(s: State, o: Outcome, id: PingId)
    requires s.worker.Thread?
    ensures FatesMove(s, WorkerStep(o), WorkerNext(s, o), id)
  {
    if s.worker.pc == OnSession(Consume) {
      ConsumeStepFates(s, o, id);
    } else {
      FramedFates(s, o, WorkerNext(s, o), id);
    }
  }

  lemma StepFatesOf(s: State, l: Label, id: PingId)
    requires Enabled(s, l)
    ensures FatesMove(s, l, Apply(s, l), id)
  {
    match l
    case WorkerStep(o) => WorkerStepFates(s, o, id);
    case UiStep(ok, now) => UiStepFates(s, ok, now, id);
    case _ =>
  }

  // Every run

  /** A ping is ponged exactly when an acknowledgement of it is taken while it is pending, and
      dropped exactly when stop empties the table while it is pending. */
  lemma {:induction false} FatesExactly(s: State, ls: seq<Label>, t: State, id: PingId)
    requires Run(s, ls, t)
    ensures id in t.ledger.ponged <==> id in s.ledger.ponged || AnsweredInTime(s, ls, id)
    ensures id in t.ledger.cleared <==> id in s.ledger.cleared || DroppedByStop(s, ls, id)
    decreases ls
  {
    if ls != [] {
      StepFatesOf(s, ls[0], id);
      FatesExactly(Apply(s, ls[0]), ls[1..], t, id);
    }
  }

  /** Acknowledgements taken before the ping enters the table never count, however many: what
      becomes of it is decided by what comes after. */
  lemma EarlyAcksAreLost(before: seq<Label>, s: State, ls: seq<Label>, t: State, id: PingId)
    requires Run(Init(), before, s) && Inserting(s.ui) && s.ui.ping == id && Run(s, ls, t)
    ensures !AnsweredInTime(Init(), before, id)
    ensures id in t.ledger.ponged <==> AnsweredInTime(s, ls, id)
    ensures id in t.ledger.cleared <==> DroppedByStop(s, ls, id)
  {
    InitBalanced();
    AlwaysBalanced(Init(), before, s);
    assert id !in s.ledger.inserted && Partition(s);
    FatesExactly(Init(), before, s, id);
    FatesExactly(s, ls, t, id);
  }

  predicate Entered(s: State, id: PingId) { s.ui == OnPing(PingInsert, id) || id in s.ledger.inserted }

  lemma StepEntered(s: State, l: Label, id: PingId)
    requires Entered(s, id) && Enabled(s, l)
    ensures Entered(Apply(s, l), id)
  {
    StepFatesOf(s, l, id);
  }

  lemma {:induction false} RunEntered(s: State, ls: seq<Label>, t: State, id: PingId)
    requires Entered(s, id) && Run(s, ls, t)
    ensures Entered(t, id)
    decreases ls
  {
    if ls != [] {
      StepEntered(s, ls[0], id);
      RunEntered(Apply(s, ls[0]), ls[1..], t, id);
    }
  }

  /** The ping has been armed, its timer has fired and the firing has looked at the table. */
  predicate TimerDone(s: State, id: PingId) {
    id !in s.timers && !InProgress(s, id) && s.ui != OnTimeout(TimeoutErase, id)
  }

  /** The outcome of every published ping: once its timer is done and nothing is in flight, it
      was ponged once exactly when it was answered in time, it was timed out once exactly when
      it was neither answered in time nor dropped by a stop, and nothing else. */
  lemma PingOutcome(before: seq<Label>, s: State, ls: seq<Label>, t: State, id: PingId)
    requires Run(Init(), before, s) && s.ui == OnPing(PingInsert, id)
    requires Run(s, ls, t) && TimerDone(t, id) && Settled(t)
    ensures Count(t.posted, id, Pong) == One(AnsweredInTime(s, ls, id))
    ensures Count(t.posted, id, Timeout) == One(!AnsweredInTime(s, ls, id) && !DroppedByStop(s, ls, id))
  {
    EarlyAcksAreLost(before, s, ls, t, id);
    AlwaysBalanced(Init(), before, s);
    AlwaysBalanced(s, ls, t);
    RunEntered(s, ls, t, id);
    SettledFinals(t, id);
    TimedOutIsTheRest(t, id);
  }

  lemma SettledFinals(t: State, id: PingId)
    requires Balanced(t) && Settled(t)
    ensures Count(t.posted, id, Pong) == One(id in t.ledger.ponged)
    ensures Count(t.posted, id, Timeout) == One(id in t.ledger.timedOut)
  {
    assert FinalsOf(t, id);
  }

  lemma TimedOutIsTheRest(t: State, id: PingId)
    requires Fates(t) && id in t.ledger.inserted && TimerDone(t, id)
    ensures id in t.ledger.timedOut <==> id !in t.ledger.ponged && id !in t.ledger.cleared
  {
    assert id !in t.pending.Keys;
  }

  lemma NoStopStep(s: State, l: Label)
    requires Enabled(s, l) && !s.ui.OnStop? && l != CallStop
    ensures !Apply(s, l).ui.OnStop?
  {
    if l.WorkerStep? { assert WorkerFrame(s, WorkerNext(s, l.outcome)); }
  }

  lemma {:induction false} NoStopDropsNothing(s: State, ls: seq<Label>, t: State, id: PingId)
    requires Run(s, ls, t) && !s.ui.OnStop? && CallStop !in ls
    ensures !DroppedByStop(s, ls, id)
    decreases ls
  {
    if ls != [] {
      var m := Apply(s, ls[0]);
      NoStopStep(s, ls[0]);
      NoStopDropsNothing(m, ls[1..], t, id);
    }
  }

  /** Every published ping that is not answered in time times out, once, unless the client is
      stopped. */
  lemma UnansweredPingTimesOut(before: seq<Label>, s: State, ls: seq<Label>, t: State, id: PingId)
    requires Run(Init(), before, s) && s.ui == OnPing(PingInsert, id)
    requires Run(s, ls, t) && TimerDone(t, id) && Settled(t)
    requires CallStop !in ls && !AnsweredInTime(s, ls, id)
    ensures Count(t.posted, id, Timeout) == 1 && Count(t.posted, id, Pong) == 0
  {
    NoStopDropsNothing(s, ls, t, id);
    PingOutcome(before, s, ls, t, id);
  }

  /** An acknowledgement taken in the gap between publish and insert settles nothing: in every
      run, unless it is repeated after the insert or the client is stopped, the ping it
      answered times out, once. */
  lemma AckInTheGapTimesOut(before: seq<Label>, s: State, msg: Message, now: int, ls: seq<Label>, t: State, id: PingId)
    requires Run(Init(), before, s) && InGap(s, id) && IsAckFor(msg, id)
    requires var m := Apply(s, WorkerStep(Delivers(msg, now)));
             Run(m, ls, t) && CallStop !in ls && !AnsweredInTime(m, ls, id)
    requires TimerDone(t, id) && Settled(t)
    ensures Count(t.posted, id, Timeout) == 1 && Count(t.posted, id, Pong) == 0
  {
    var longer, m := RunThen(Init(), before, s, WorkerStep(Delivers(msg, now)));
    UnansweredPingTimesOut(longer, m, ls, t, id);
  }

  // The gap is real

  function PongFor(id: PingId): Message {
    Message(Ack, Some(JsonTree.Obj(map["id" := JsonTree.Str(id), "ok" := JsonTree.Bool(true)])))
  }

  lemma RunAnswersInGap(id: PingId) returns (ls: seq<Label>, s: State)
    requires id != ""
    ensures Run(Init(), ls, s) && s.ui == OnPing(PingInsert, id) && s.uiOut == [] && s.wOut == []
    ensures s.timers == {} && !s.stop
    ensures |ls| > 1 && ls[|ls| - 2] == WorkerStep(Delivers(PongFor(id), 0))
  {
    var early;
    early, s := RunIntoGap(id);
    EarlyAcksAreLost(early, s, [], s, id);
    ls, s := RunThen(Init(), early, s, WorkerStep(Delivers(PongFor(id), 0)));
    assert ls[|ls| - 1] == WorkerStep(Delivers(PongFor(id), 0));
    ls, s := RunThen(Init(), ls, s, WorkerPost);
  }

  lemma RunArms(id: PingId) returns (ls: seq<Label>, s: State)
    requires id != ""
    ensures Run(Init(), ls, s) && WorkerStep(Delivers(PongFor(id), 0)) in ls
    ensures s.ui == Idle && s.uiOut == [] && s.wOut == [] && !s.stop
    ensures id in s.pending && id in s.timers && Balanced(s)
  {
    ls, s := RunAnswersInGap(id);
    ls, s := RunThen(Init(), ls, s, UiStep(true, 0));
    ls, s := RunThen(Init(), ls, s, UiStep(true, 0));
    ls, s := RunThen(Init(), ls, s, UiPost);
    ls, s := RunThen(Init(), ls, s, UiStep(true, 0));
    InitBalanced();
    AlwaysBalanced(Init(), ls, s);
  }

  /** A run from the first state in which a ping is acknowledged and yet reported timed out. */
  lemma RunAnsweredYetTimedOut(id: PingId) returns (ls: seq<Label>, s: State)
    requires id != ""
    ensures Run(Init(), ls, s) && WorkerStep(Delivers(PongFor(id), 0)) in ls
    ensures Count(s.posted, id, Timeout) == 1 && Count(s.posted, id, Pong) == 0
  {
    ls, s := RunArms(id);
    ls, s := RunThen(Init(), ls, s, TimerFires(id));
    ls, s := RunThen(Init(), ls, s, UiStep(true, 0));
    assert id in s.ledger.timedOut;
    ls, s := RunThen(Init(), ls, s, UiStep(true, 0));
    ls, s := RunThen(Init(), ls, s, UiPost);
    InitBalanced();
    AlwaysBalanced(Init(), ls, s);
    SettledFinals(s, id);
    assert Partition(s);
  }
}
