/** The ping ledger: every ping that entered the table has exactly one fate, whatever the
    interleaving of publish, acks (repeated ones too), timers and stop. */
module PahoLedger {
  import opened Wrappers
  import opened GuiMessages
  import opened PahoMachine
  import opened PahoOwnership

  // Fates

  predicate Apart(a: set<PingId>, b: set<PingId>) { forall id :: id in a ==> id !in b }

  /** Every inserted id is in exactly one of pending, ponged, timed out and cleared. */
  predicate Partition(s: State) {
    var l := s.ledger;
    && l.inserted == s.pending.Keys + l.ponged + l.timedOut + l.cleared
    && Apart(s.pending.Keys, l.ponged) && Apart(s.pending.Keys, l.timedOut)
    && Apart(s.pending.Keys, l.cleared) && Apart(l.ponged, l.timedOut)
    && Apart(l.ponged, l.cleared) && Apart(l.timedOut, l.cleared)
  }

  /** The ping the UI thread is about to insert. */
  predicate Inserting(ui: UiPc) {
    ui.OnPing? && (ui.pingPc == PingCheck || ui.pingPc == PingPublish || ui.pingPc == PingInsert)
  }

  /** The ids whose timer is not armed yet, or has just fired. */
  function InHand(ui: UiPc): set<PingId> {
    if ui.OnPing? && (ui.pingPc == PingPending || ui.pingPc == PingArm) then {ui.ping}
    else if ui.OnTimeout? && ui.timeoutPc == TimeoutErase then {ui.ping}
    else {}
  }

  /** `stop` is between its join and the moment it clears the table. */
  predicate Clearing(ui: UiPc) { ui == OnStop(StopReset) || ui == OnStop(StopClear) }

  predicate Owing(ui: UiPc) { ui.OnTimeout? && ui.timeoutPc == TimeoutReport(true) }

  predicate Table(s: State) {
    && s.ledger.inserted <= s.ledger.issued
    && (s.ui.OnPing? ==> s.ui.ping in s.ledger.issued)
    && (Inserting(s.ui) ==> s.ui.ping !in s.ledger.inserted)
    && s.pending.Keys <= s.timers + InHand(s.ui)
    && (s.worker.NoThread? && !Clearing(s.ui) ==> s.pending == map[])
    && (Owing(s.ui) ==> s.worker.Thread? && s.ui.ping in s.ledger.timedOut)
  }

  predicate Fates(s: State) { Partition(s) && Table(s) }

  lemma InsertFates(s: State, now: int)
    requires Fates(s) && UiOwns(s) && s.ui.OnPing? && s.ui.pingPc == PingInsert
    ensures Fates(PingNext(s, PingInsert, s.ui.ping, true, now))
  {
    assert s.pending[s.ui.ping := now].Keys == s.pending.Keys + {s.ui.ping};
  }

  lemma PingFates(s: State, ok: bool, now: int)
    requires Fates(s) && UiOwns(s) && s.ui.OnPing? && s.ui.pingPc != PingInsert
    ensures Fates(PingNext(s, s.ui.pingPc, s.ui.ping, ok, now))
  {}

  lemma EraseFates(s: State)
    requires Fates(s) && UiOwns(s) && s.ui.OnTimeout? && s.ui.timeoutPc == TimeoutErase
    ensures Fates(TimeoutNext(s, TimeoutErase, s.ui.ping))
  {
    assert (s.pending - {s.ui.ping}).Keys == s.pending.Keys - {s.ui.ping};
  }

  lemma ClearFates(s: State)
    requires Fates(s) && UiOwns(s) && s.ui == OnStop(StopClear)
    ensures Fates(StopNext(s, StopClear))
  {}

  lemma KeptFates(s: State, t: State)
    requires Fates(s) && t.pending == s.pending && t.ledger == s.ledger && t.timers == s.timers
    requires InHand(s.ui) == {} && !t.ui.OnPing? && !t.ui.OnTimeout?
    requires t.worker.NoThread? && !Clearing(t.ui) ==> s.worker.NoThread? && !Clearing(s.ui)
    ensures Fates(t)
  {}

  lemma StopFates(s: State)
    requires Fates(s) && UiOwns(s) && s.ui.OnStop? && s.ui != OnStop(StopClear)
    ensures Fates(StopNext(s, s.ui.stopPc))
  {
    KeptFates(s, StopNext(s, s.ui.stopPc));
  }

  lemma UiFates(s: State, ok: bool, now: int)
    requires Fates(s) && UiOwns(s)
    ensures Fates(UiNext(s, ok, now))
  {
    match s.ui
    case OnPing(pc, _) => if pc == PingInsert { InsertFates(s, now); } else { PingFates(s, ok, now); }
    case OnTimeout(pc, _) => if pc == TimeoutErase { EraseFates(s); }
    case OnStop(pc) => if pc == StopClear { ClearFates(s); } else { StopFates(s); }
    case _ =>
  }

  /** Only an ack touches the table from the worker, and it moves one id to `ponged`. */
  ghost predicate AtMostPong(s: State, t: State) {
    || (t.pending == s.pending && t.ledger == s.ledger)
    || (exists id :: Settles(s, t, id))
  }

  predicate Settles(s: State, t: State, id: PingId) {
    && id in s.pending && t.pending == s.pending - {id}
    && t.ledger == s.ledger.(ponged := s.ledger.ponged + {id})
  }

  lemma ConsumePong(s: State, o: Outcome)
    requires s.worker.Thread?
    ensures AtMostPong(s, ConsumeNext(s, o))
  {
    if !o.Throws? && o.Delivers? && o.msg.topic == Ack && AckOf(o.msg.payload).Some? {
      var id := AckOf(o.msg.payload).value.id;
      if id in s.pending { assert Settles(s, ConsumeNext(s, o), id); }
    }
  }

  lemma WorkerFates(s: State, t: State)
    requires Fates(s) && WorkerFrame(s, t) && AtMostPong(s, t)
    requires s.worker.Thread?
    ensures Fates(t)
  {
    if !(t.pending == s.pending && t.ledger == s.ledger) {
      var id :| Settles(s, t, id);
      assert t.pending.Keys == s.pending.Keys - {id};
    }
  }

  lemma StepFates(s: State, l: Label)
    requires Own(s) && Fates(s) && Enabled(s, l)
    ensures Fates(Apply(s, l))
  {
    match l
    case UiStep(ok, now) => UiFates(s, ok, now);
    case WorkerStep(o) =>
      if s.worker.pc == OnSession(Consume) { ConsumePong(s, o); }
      WorkerFates(s, WorkerNext(s, o));
    case _ =>
  }

  // Final outcomes as the window sees them

  datatype Final = Pong | Timeout

  predicate IsFinal(e: Event, id: PingId, kind: Final) {
    e.PingUpdated? && e.id == id && if kind == Timeout then e.timeout else !e.timeout && e.rtt >= 0
  }

  /** How many final updates of this kind for `id` are in `es`; the "pending" update is none. */
  function Count(es: seq<Event>, id: PingId, kind: Final): nat {
    if es == [] then 0
    else Count(es[..|es| - 1], id, kind) + if IsFinal(es[|es| - 1], id, kind) then 1 else 0
  }

  lemma {:induction false} CountConcat(a: seq<Event>, b: seq<Event>, id: PingId, kind: Final)
    ensures Count(a + b, id, kind) == Count(a, id, kind) + Count(b, id, kind)
  {
    if b == [] {
      assert a + b == a;
    } else {
      assert (a + b)[..|a + b| - 1] == a + b[..|b| - 1];
      CountConcat(a, b[..|b| - 1], id, kind);
    }
  }

  lemma CountOne(e: Event, id: PingId, kind: Final)
    ensures Count([e], id, kind) == if IsFinal(e, id, kind) then 1 else 0
  {
    assert [e][..0] == [];
  }

  /** A ponged id has exactly one pong, posted or in the worker's tray; a timed-out id
      exactly one timeout, posted, in the UI thread's tray or still to be reported. */
  predicate FinalsOf(s: State, id: PingId) {
    && Count(s.posted, id, Pong) + Count(s.wOut, id, Pong) == One(id in s.ledger.ponged)
    && Count(s.uiOut, id, Pong) == 0 && Count(s.wOut, id, Timeout) == 0
    && Count(s.posted, id, Timeout) + Count(s.uiOut, id, Timeout)
       + One(Owing(s.ui) && s.ui.ping == id) == One(id in s.ledger.timedOut)
  }

  lemma PostFinals(s: State, l: Label, id: PingId)
    requires FinalsOf(s, id) && Enabled(s, l) && (l.UiPost? || l.WorkerPost?)
    ensures FinalsOf(Apply(s, l), id)
  {
    var out := if l.UiPost? then s.uiOut else s.wOut;
    assert out == [out[0]] + out[1..];
    CountConcat(s.posted, [out[0]], id, Pong);
    CountConcat(s.posted, [out[0]], id, Timeout);
    CountConcat([out[0]], out[1..], id, Pong);
    CountConcat([out[0]], out[1..], id, Timeout);
  }

  lemma PlainCount(out: seq<Event>, id: PingId, kind: Final)
    requires Plain(out)
    ensures Count(out, id, kind) == 0
  {
    if out != [] {
      assert out == [out[0]];
      CountOne(out[0], id, kind);
    }
  }

  lemma FrameFinals(s: State, t: State, id: PingId)
    requires FinalsOf(s, id) && UiFrame(s, t) && s.uiOut == [] && !s.ui.OnTimeout?
    ensures FinalsOf(t, id)
  {
    PlainCount(t.uiOut, id, Pong);
    PlainCount(t.uiOut, id, Timeout);
  }

  lemma PingFinals(s: State, ok: bool, now: int, id: PingId)
    requires FinalsOf(s, id) && s.uiOut == [] && s.ui.OnPing?
    ensures FinalsOf(PingNext(s, s.ui.pingPc, s.ui.ping, ok, now), id)
  {
    if s.ui.pingPc == PingPending {
      CountOne(PingUpdated(s.ui.ping, -1, false), id, Pong);
      CountOne(PingUpdated(s.ui.ping, -1, false), id, Timeout);
    }
  }

  /** The ping just erased is still owed its report. */
  lemma EraseFinals(s: State, id: PingId)
    requires Partition(s) && FinalsOf(s, id) && s.ui.OnTimeout? && s.ui.timeoutPc == TimeoutErase
    ensures FinalsOf(TimeoutNext(s, TimeoutErase, s.ui.ping), id)
  {
    assert s.ui.ping in s.pending ==> s.ui.ping in s.pending.Keys && s.ui.ping !in s.ledger.timedOut;
  }

  /** The report is made: `stop_` cannot be set while a removal is unreported. */
  lemma ReportFinals(s: State, id: PingId)
    requires Table(s) && UiOwns(s) && FinalsOf(s, id) && s.uiOut == []
    requires s.ui.OnTimeout? && s.ui.timeoutPc.TimeoutReport?
    ensures FinalsOf(TimeoutNext(s, s.ui.timeoutPc, s.ui.ping), id)
  {
    CountOne(PingUpdated(s.ui.ping, -1, true), id, Pong);
    CountOne(PingUpdated(s.ui.ping, -1, true), id, Timeout);
  }

  lemma UiFinals(s: State, ok: bool, now: int, id: PingId)
    requires Fates(s) && UiOwns(s) && FinalsOf(s, id) && s.uiOut == []
    ensures FinalsOf(UiNext(s, ok, now), id)
  {
    match s.ui
    case OnPing(_, _) => PingFinals(s, ok, now, id);
    case OnTimeout(pc, _) => if pc == TimeoutErase { EraseFinals(s, id); } else { ReportFinals(s, id); }
    case Idle =>
    case _ => FrameFinals(s, UiNext(s, ok, now), id);
  }

  /** The worker's tray after a step: at most one final update, the pong of a settled ping. */
  predicate TrayOf(s: State, t: State, id: PingId) {
    && Count(t.wOut, id, Timeout) == 0
    && Count(t.wOut, id, Pong) == One(id in t.ledger.ponged && id !in s.ledger.ponged)
    && s.ledger.ponged <= t.ledger.ponged && t.ledger.timedOut == s.ledger.timedOut
  }

  lemma SettleTray(s: State, ack: AckBody, now: int, id: PingId)
    requires Fates(s) && s.worker.Thread?
    ensures TrayOf(s, SettleAck(s, ack, now), id)
  {
    var out := SettleAck(s, ack, now).wOut;
    CountOne(out[0], id, Pong);
    CountOne(out[0], id, Timeout);
    if |out| == 2 { assert out[..1] == [out[0]]; }
  }

  lemma DispatchTray(s: State, msg: Message, now: int, id: PingId)
    requires Fates(s) && s.worker.Thread? && s.wOut == []
    ensures TrayOf(s, Dispatch(s, msg, now), id)
  {
    if msg.topic == Ack && AckOf(msg.payload).Some? {
      SettleTray(s, AckOf(msg.payload).value, now, id);
    } else {
      PlainCount(Dispatch(s, msg, now).wOut, id, Pong);
      PlainCount(Dispatch(s, msg, now).wOut, id, Timeout);
    }
  }

  lemma ConsumeTray(s: State, o: Outcome, id: PingId)
    requires Fates(s) && s.worker.Thread? && s.wOut == []
    ensures TrayOf(s, ConsumeNext(s, o), id)
  {
    if o.Delivers? { DispatchTray(s, o.msg, o.now, id); }
  }

  lemma TrayFinals(s: State, t: State, id: PingId)
    requires FinalsOf(s, id) && s.wOut == [] && WorkerFrame(s, t) && TrayOf(s, t, id)
    ensures FinalsOf(t, id)
  {}

  lemma OtherTray(s: State, t: State, id: PingId)
    requires s.wOut == [] && TableFrame(s, t)
    ensures TrayOf(s, t, id)
  {
    PlainCount(t.wOut, id, Pong);
    PlainCount(t.wOut, id, Timeout);
  }

  lemma StepFinals(s: State, l: Label, id: PingId)
    requires Own(s) && Fates(s) && FinalsOf(s, id) && Enabled(s, l)
    ensures FinalsOf(Apply(s, l), id)
  {
    match l
    case UiPost => PostFinals(s, l, id);
    case WorkerPost => PostFinals(s, l, id);
    case UiStep(ok, now) => UiFinals(s, ok, now, id);
    case WorkerStep(o) =>
      var t := WorkerNext(s, o);
      if s.worker.pc == OnSession(Consume) { ConsumeTray(s, o, id); } else { OtherTray(s, t, id); }
      TrayFinals(s, t, id);
    case _ =>
  }

  // Over whole runs

  ghost predicate Balanced(s: State) {
    Own(s) && Fates(s) && forall id :: FinalsOf(s, id)
  }

  lemma InitBalanced()
    ensures Balanced(Init())
  {
    InitOwn();
  }

  lemma StepBalanced(s: State, l: Label)
    requires Balanced(s) && Enabled(s, l)
    ensures Balanced(Apply(s, l))
  {
    StepOwn(s, l);
    StepFates(s, l);
    forall id ensures FinalsOf(Apply(s, l), id) {
      assert FinalsOf(s, id);
      StepFinals(s, l, id);
    }
  }

  lemma {:induction false} AlwaysBalanced(s: State, ls: seq<Label>, t: State)
    requires Balanced(s) && Run(s, ls, t)
    ensures Balanced(t)
    decreases ls
  {
    if ls != [] {
      StepBalanced(s, ls[0]);
      AlwaysBalanced(Apply(s, ls[0]), ls[1..], t);
    }
  }

  /** Nothing about pings is on its way to the window. */
  predicate Settled(s: State) { s.uiOut == [] && s.wOut == [] && !Owing(s.ui) }

  /** What the ledger promises of one state: each id ever inserted has exactly one fate, at
      most one final update was posted for any id, and when nothing is in flight the posted
      finals are exactly the ponged and the timed-out ids. */
  ghost predicate Conserved(t: State) {
    && Partition(t)
    && (forall id :: Count(t.posted, id, Pong) + Count(t.posted, id, Timeout) <= 1)
    && (forall id :: Count(t.posted, id, Pong) == 1 ==> id in t.ledger.ponged)
    && (forall id :: Count(t.posted, id, Timeout) == 1 ==> id in t.ledger.timedOut)
    && (Settled(t) ==> forall id :: Count(t.posted, id, Pong) == One(id in t.ledger.ponged))
    && (Settled(t) ==> forall id :: Count(t.posted, id, Timeout) == One(id in t.ledger.timedOut))
  }

  lemma BalancedConserves(t: State)
    requires Balanced(t)
    ensures Conserved(t)
  {
    forall id
      ensures Count(t.posted, id, Pong) <= One(id in t.ledger.ponged)
      ensures Count(t.posted, id, Timeout) <= One(id in t.ledger.timedOut)
      ensures Count(t.posted, id, Pong) + Count(t.posted, id, Timeout) <= 1
      ensures Settled(t) ==> Count(t.posted, id, Pong) == One(id in t.ledger.ponged)
      ensures Settled(t) ==> Count(t.posted, id, Timeout) == One(id in t.ledger.timedOut)
    {
      assert FinalsOf(t, id);
    }
  }

  /** Conservation in every reachable state. */
  lemma LedgerConservation(ls: seq<Label>, t: State)
    requires Run(Init(), ls, t)
    ensures Conserved(t)
  {
    InitBalanced();
    AlwaysBalanced(Init(), ls, t);
    BalancedConserves(t);
  }

  /** No leak: whenever the UI thread is idle every pending ping has an armed timer, and
      without a worker nothing is pending, so no erased ping misses its report. */
  predicate Leakless(t: State) {
    && (t.ui == Idle ==> t.pending.Keys <= t.timers)
    && (t.ui == Idle && t.timers == {} ==> t.pending == map[])
    && (t.ui == Idle && t.worker.NoThread? ==> t.pending == map[])
    && (Owing(t.ui) ==> !t.stop)
  }

  lemma BalancedLeakless(t: State)
    requires Balanced(t)
    ensures Leakless(t)
  {
    if t.ui == Idle && t.timers == {} { assert t.pending.Keys == {}; }
  }

  lemma NoLeakedPing(ls: seq<Label>, t: State)
    requires Run(Init(), ls, t)
    ensures Leakless(t)
  {
    InitBalanced();
    AlwaysBalanced(Init(), ls, t);
    BalancedLeakless(t);
  }

  /** t is later than s as far as pings are concerned. */
  ghost predicate Later(s: State, t: State) {
    && s.ledger.issued <= t.ledger.issued && s.ledger.ponged <= t.ledger.ponged
    && s.ledger.timedOut <= t.ledger.timedOut && s.ledger.cleared <= t.ledger.cleared
    && s.posted <= t.posted
    && (forall id :: id in s.ledger.issued && id in t.ledger.inserted
          ==> id in s.ledger.inserted || InProgress(s, id))
    && (forall id :: id in s.ledger.issued && InProgress(t, id) ==> InProgress(s, id))
  }

  predicate InProgress(s: State, id: PingId) { s.ui.OnPing? && s.ui.ping == id }

  lemma PingLater(s: State, ok: bool, now: int)
    requires s.ui.OnPing? && s.uiOut == []
    ensures Later(s, PingNext(s, s.ui.pingPc, s.ui.ping, ok, now))
  {}

  lemma WorkerLater(s: State, t: State)
    requires WorkerFrame(s, t) && AtMostPong(s, t)
    ensures Later(s, t)
  {}

  lemma FrameLater(s: State, t: State)
    requires UiFrame(s, t)
    ensures Later(s, t)
  {}

  lemma UiLater(s: State, ok: bool, now: int)
    requires s.uiOut == []
    ensures Later(s, UiNext(s, ok, now))
  {
    match s.ui
    case OnPing(_, _) => PingLater(s, ok, now);
    case OnTimeout(_, _) =>
    case Idle =>
    case _ => FrameLater(s, UiNext(s, ok, now));
  }

  lemma StepLater(s: State, l: Label)
    requires Balanced(s) && Enabled(s, l)
    ensures Later(s, Apply(s, l))
  {
    match l
    case WorkerStep(o) =>
      if s.worker.pc == OnSession(Consume) { ConsumePong(s, o); }
      WorkerLater(s, WorkerNext(s, o));
    case UiStep(ok, now) => UiLater(s, ok, now);
    case _ =>
  }

  lemma {:induction false} RunLater(s: State, ls: seq<Label>, t: State)
    requires Balanced(s) && Run(s, ls, t)
    ensures Later(s, t)
    decreases ls
  {
    if ls != [] {
      var m := Apply(s, ls[0]);
      StepLater(s, ls[0]);
      StepBalanced(s, ls[0]);
      RunLater(m, ls[1..], t);
      assert s.posted <= m.posted <= t.posted;
    }
  }

  lemma CountPrefix(a: seq<Event>, b: seq<Event>, id: PingId, kind: Final)
    requires a <= b
    ensures Count(a, id, kind) <= Count(b, id, kind)
  {
    CountConcat(a, b[|a|..], id, kind);
    assert a + b[|a|..] == b;
  }

  /** A ping that left the table keeps the fate it has. */
  lemma FateIsFinal(s: State, t: State, id: PingId)
    requires Partition(s) && Partition(t) && Later(s, t)
    requires id in s.ledger.issued && id !in s.pending.Keys && !InProgress(s, id)
    ensures id in t.ledger.ponged <==> id in s.ledger.ponged
    ensures id in t.ledger.timedOut <==> id in s.ledger.timedOut
  {
    if id in t.ledger.ponged || id in t.ledger.timedOut {
      assert id in t.ledger.inserted && id in s.ledger.inserted;
    }
  }

  function Fate(s: State, id: PingId, kind: Final): bool {
    if kind == Pong then id in s.ledger.ponged else id in s.ledger.timedOut
  }

  lemma PostedAtMost(s: State, id: PingId, kind: Final)
    requires Balanced(s)
    ensures Count(s.posted, id, kind) <= One(Fate(s, id, kind))
  {
    assert FinalsOf(s, id);
  }

  /** When stop returns, everything owed to the window has been posted. */
  lemma PostedAtReturn(s: State, id: PingId, kind: Final)
    requires Balanced(s) && s.ui == OnStop(StopReturn) && s.uiOut == []
    ensures s.pending == map[] && Count(s.posted, id, kind) == One(Fate(s, id, kind))
  {
    assert FinalsOf(s, id);
    assert UiOwns(s) && Table(s);
  }

  /** No ghosts: once a stop has completed, nothing final is ever posted again for a ping
      issued before it, whatever is connected later. */
  lemma NoGhostPing(before: seq<Label>, s: State, after: seq<Label>, t: State, id: PingId, kind: Final)
    requires Run(Init(), before, s) && s.ui == OnStop(StopReturn) && s.uiOut == []
    requires Run(s, after, t)
    requires id in s.ledger.issued
    ensures Count(t.posted, id, kind) == Count(s.posted, id, kind)
  {
    InitBalanced();
    AlwaysBalanced(Init(), before, s);
    AlwaysBalanced(s, after, t);
    RunLater(s, after, t);
    CountPrefix(s.posted, t.posted, id, kind);
    PostedAtReturn(s, id, kind);
    PostedAtMost(t, id, kind);
    FateIsFinal(s, t, id);
  }
}
