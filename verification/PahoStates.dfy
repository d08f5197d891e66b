/** The connection state as the window hears of it: while no stop is under way it is the last
    state told, and it says where the worker is. */
module PahoStates {
  import opened Wrappers
  import opened GuiMessages
  import opened PahoMachine
  import opened PahoOwnership
  import opened PahoStop

  /** No stop is between raising its flag and returning. */
  predicate Undisturbed(ui: UiPc) { !Stopped(ui) || ui == OnStop(StopReturn) }

  predicate Trying(conn: ConnState) { conn == Connecting || conn == Disconnected }

  predicate Leaving(conn: ConnState) { conn == Connecting || conn == Connected }

  /** The connection state at each position of the worker, with no stop requested. */
  predicate StateAt(pc: WorkerPc, conn: ConnState) {
    match pc
    case OnSession(p) =>
      if p == LoopTest || p == MakeClient || p == MarkConnecting then Trying(conn)
      else if p == Connect || p == MarkConnected || p == MarkState then conn == Connecting
      else conn == Connected
    case OnCleanup(p) =>
      if p == StopConsumer || p == CloseSession || p == DropConnected || p == DropPresence then conn == Connected
      else Leaving(conn)
    case OnWait(p) => if p == MarkDisconnected then Leaving(conn) else conn == Disconnected
    case OnExit(_) => false
  }

  /** Before anything is told the state is Disconnected. */
  function LastTold(es: seq<Event>): ConnState {
    var last := LastState(es);
    if last.Some? then last.value else Disconnected
  }

  predicate Placed(s: State) { s.worker.Thread? && !s.stop ==> StateAt(s.worker.pc, s.conn) }

  /** Where no stop disturbs, the state is the last one told or about to be told. */
  predicate WindowKnows(s: State) {
    Undisturbed(s.ui) ==> LastTold(s.posted + s.uiOut + s.wOut) == s.conn
  }

  lemma {:induction false} LastOfConcat(a: seq<Event>, b: seq<Event>)
    ensures LastState(a + b) == if LastState(b).Some? then LastState(b) else LastState(a)
  {
    if b == [] {
      assert a + b == a;
    } else if !b[|b| - 1].StateChanged? {
      assert (a + b)[..|a + b| - 1] == a + b[..|b| - 1];
      LastOfConcat(a, b[..|b| - 1]);
    }
  }

  predicate Stateless(es: seq<Event>) { forall e :: e in es ==> !e.StateChanged? }

  lemma {:induction false} StatelessTellsNone(es: seq<Event>)
    requires Stateless(es)
    ensures LastState(es) == None
  {
    if es != [] {
      assert es[|es| - 1] in es && forall e :: e in es[..|es| - 1] ==> e in es;
      StatelessTellsNone(es[..|es| - 1]);
    }
  }

  /** What an exchange of the state owes is what a listener lacks. */
  lemma OwedState(told: seq<Event>, prev: ConnState, to: ConnState)
    requires LastTold(told) == prev
    ensures LastTold(told + Owed(prev, to, StateChanged(to))) == to
  {
    if prev == to {
      assert told + [] == told;
    } else {
      var e := StateChanged(to);
      assert (told + [e])[|told|] == e;
    }
  }

  /** While a worker lives undisturbed, the UI thread owes no state. */
  predicate UiOwesNone(s: State) {
    s.worker.Thread? && Undisturbed(s.ui) ==> Stateless(s.uiOut)
  }

  /** Without a worker the state is Disconnected, but for a connect about to start one. */
  predicate Resting(s: State) {
    s.worker.NoThread? && Undisturbed(s.ui) ==>
      s.conn == if s.ui == OnConnect(ConnectStart) then Connecting else Disconnected
  }

  predicate Telling(s: State) { Placed(s) && WindowKnows(s) && UiOwesNone(s) && Resting(s) }

  // Worker steps

  predicate Announced(pc: SessionPc) {
    pc.Subscribe? || pc == StartConsuming || pc == ConsumeTest || pc == Consume
  }

  lemma OpeningPlaced(s: State, o: Outcome)
    requires Placed(s) && s.worker.Thread? && !s.stop && s.worker.pc.OnSession?
    requires !Announced(s.worker.pc.sessionPc)
    ensures Placed(SessionNext(s, s.worker.pc.sessionPc, o))
  {}

  lemma AnnouncedPlaced(s: State, o: Outcome)
    requires Placed(s) && s.worker.Thread? && !s.stop && s.worker.pc.OnSession?
    requires Announced(s.worker.pc.sessionPc) && s.worker.pc != OnSession(Consume)
    ensures Placed(SessionNext(s, s.worker.pc.sessionPc, o))
  {}

  lemma ConsumePlaced(s: State, o: Outcome)
    requires Placed(s) && s.worker.Thread? && s.wOut == [] && !s.stop && s.worker.pc == OnSession(Consume)
    ensures Placed(ConsumeNext(s, o))
  {
    if o.Delivers? { DispatchStateless(s, o.msg, o.now); }
  }

  lemma CleanupPlaced(s: State)
    requires Placed(s) && s.worker.Thread? && !s.stop && s.worker.pc.OnCleanup?
    ensures Placed(CleanupNext(s, s.worker.pc.cleanupPc))
  {}

  lemma WaitPlaced(s: State, o: Outcome)
    requires Placed(s) && s.worker.Thread? && !s.stop && s.worker.pc.OnWait?
    ensures Placed(WaitNext(s, s.worker.pc.waitPc, o))
  {}

  lemma WorkerPlaced(s: State, o: Outcome)
    requires Placed(s) && s.worker.Thread? && s.wOut == [] && !s.stop
    ensures Placed(WorkerNext(s, o))
  {
    match s.worker.pc
    case OnSession(pc) =>
      if pc == Consume { ConsumePlaced(s, o); }
      else if Announced(pc) { AnnouncedPlaced(s, o); }
      else { OpeningPlaced(s, o); }
    case OnCleanup(_) => CleanupPlaced(s);
    case OnWait(_) => WaitPlaced(s, o);
    case OnExit(_) =>
  }

  /** A worker step changes the state together with owing it, or neither. */
  predicate OwesState(s: State, t: State) {
    || t.wOut == Owed(s.conn, t.conn, StateChanged(t.conn))
    || (t.conn == s.conn && Stateless(t.wOut))
  }

  lemma SessionOwes(s: State, o: Outcome)
    requires s.worker.Thread? && s.wOut == [] && s.worker.pc.OnSession? && s.worker.pc != OnSession(Consume)
    ensures OwesState(s, SessionNext(s, s.worker.pc.sessionPc, o))
  {}

  lemma DispatchStateless(s: State, msg: Message, now: int)
    requires s.worker.Thread? && s.wOut == []
    ensures var t := Dispatch(s, msg, now);
            t.conn == s.conn && Stateless(t.wOut)
  {}

  lemma ConsumeOwes(s: State, o: Outcome)
    requires s.worker.Thread? && s.wOut == []
    ensures OwesState(s, ConsumeNext(s, o))
  {
    if o.Delivers? { DispatchStateless(s, o.msg, o.now); }
  }

  lemma CleanupOwes(s: State)
    requires s.worker.Thread? && s.wOut == [] && s.worker.pc.OnCleanup?
    ensures OwesState(s, CleanupNext(s, s.worker.pc.cleanupPc))
  {}

  lemma WaitOwes(s: State, o: Outcome)
    requires s.worker.Thread? && s.wOut == [] && s.worker.pc.OnWait?
    ensures OwesState(s, WaitNext(s, s.worker.pc.waitPc, o))
  {}

  lemma ExitOwes(s: State)
    requires s.worker.Thread? && s.wOut == [] && s.worker.pc.OnExit?
    ensures OwesState(s, ExitNext(s, s.worker.pc.exitPc))
  {}

  lemma WorkerOwes(s: State, o: Outcome)
    requires s.worker.Thread? && s.wOut == []
    ensures OwesState(s, WorkerNext(s, o))
  {
    match s.worker.pc
    case OnSession(pc) => if pc == Consume { ConsumeOwes(s, o); } else { SessionOwes(s, o); }
    case OnCleanup(_) => CleanupOwes(s);
    case OnWait(_) => WaitOwes(s, o);
    case OnExit(_) => ExitOwes(s);
  }

  lemma WorkerTellsWindow(s: State, t: State)
    requires WindowKnows(s) && s.wOut == [] && WorkerFrame(s, t) && OwesState(s, t)
    ensures WindowKnows(t)
  {
    var told := s.posted + s.uiOut;
    assert told + s.wOut == told;
    if Undisturbed(s.ui) {
      if t.wOut == Owed(s.conn, t.conn, StateChanged(t.conn)) {
        OwedState(told, s.conn, t.conn);
      } else {
        StatelessTellsNone(t.wOut);
        LastOfConcat(told, t.wOut);
      }
    }
  }

  // UI steps

  lemma ConnectTelling(s: State)
    requires UiOwns(s) && Telling(s) && s.uiOut == [] && s.ui.OnConnect?
    ensures Telling(ConnectNext(s, s.ui.connectPc))
  {
    var t := ConnectNext(s, s.ui.connectPc);
    assert s.posted + s.uiOut + s.wOut == s.posted && t.posted + t.uiOut + t.wOut == s.posted + t.uiOut;
    if s.ui.connectPc == ConnectState {
      OwedState(s.posted, s.conn, Connecting);
    } else {
      StatelessTellsNone(t.uiOut);
      LastOfConcat(s.posted, t.uiOut);
    }
  }

  /** A step that leaves state and worker alone and owes at most other signals. */
  lemma OtherTelling(s: State, t: State)
    requires Telling(s) && s.uiOut == [] && t.worker == s.worker && t.stop == s.stop && t.conn == s.conn
    requires t.posted == s.posted && t.wOut == s.wOut && Stateless(t.uiOut)
    requires Undisturbed(t.ui) ==> Undisturbed(s.ui)
    requires (t.ui == OnConnect(ConnectStart)) == (s.ui == OnConnect(ConnectStart))
    ensures Telling(t)
  {
    StatelessTellsNone(t.uiOut);
    LastOfConcat(s.posted, t.uiOut);
    LastOfConcat(s.posted + t.uiOut, s.wOut);
    LastOfConcat(s.posted, s.wOut);
    assert s.posted + s.uiOut == s.posted;
  }

  lemma PingTelling(s: State, ok: bool, now: int)
    requires Telling(s) && s.uiOut == [] && (s.ui.OnPing? || s.ui.OnTimeout?)
    ensures Telling(UiNext(s, ok, now))
  {
    var t := UiNext(s, ok, now);
    PingQuiet(s, ok, now);
    OtherTelling(s, t);
  }

  lemma PingQuiet(s: State, ok: bool, now: int)
    requires s.uiOut == [] && (s.ui.OnPing? || s.ui.OnTimeout?)
    ensures var t := UiNext(s, ok, now);
            PingFrame(s, t) && Stateless(t.uiOut) && !t.ui.OnStop? && !t.ui.OnConnect?
  {}

  /** In the middle of a stop nothing is claimed. */
  lemma HaltTelling(s: State)
    requires UiOwns(s) && Telling(s) && s.ui.OnStop? && Halting(s.ui.stopPc)
    ensures Telling(HaltNext(s, s.ui.stopPc))
  {
    HaltAdvances(s, s.ui.stopPc);
    assert HaltNext(s, s.ui.stopPc).stop == (s.stop || s.ui.stopPc == StopFlag);
  }

  lemma ReleaseTelling(s: State)
    requires UiOwns(s) && Telling(s) && s.uiOut == [] && s.ui.OnStop? && Releasing(s.ui.stopPc)
    ensures Telling(ReleaseNext(s, s.ui.stopPc))
  {}

  /** The end of a stop tells what it then is. */
  lemma WithdrawTelling(s: State)
    requires Own(s) && Telling(s) && s.uiOut == [] && s.ui.OnStop?
    requires !Halting(s.ui.stopPc) && !Releasing(s.ui.stopPc)
    ensures Telling(WithdrawNext(s, s.ui.stopPc))
  {
    if s.ui.stopPc == StopState {
      AnnounceTold(s);
      var t := WithdrawNext(s, StopState);
      assert t.posted + t.uiOut + t.wOut == t.posted + t.uiOut;
    }
  }

  lemma UiTelling(s: State, ok: bool, now: int)
    requires Own(s) && Telling(s) && Enabled(s, UiStep(ok, now))
    ensures Telling(UiNext(s, ok, now))
  {
    match s.ui
    case OnConnect(_) => ConnectTelling(s);
    case OnStop(pc) =>
      if Halting(pc) { HaltTelling(s); } else if Releasing(pc) { ReleaseTelling(s); } else { WithdrawTelling(s); }
    case _ => PingTelling(s, ok, now);
  }

  // Posting

  lemma UiPostTelling(s: State)
    requires Telling(s) && s.uiOut != []
    ensures Telling(Apply(s, UiPost))
  {
    assert s.posted + [s.uiOut[0]] + s.uiOut[1..] == s.posted + s.uiOut;
    assert forall e :: e in s.uiOut[1..] ==> e in s.uiOut;
  }

  /** The worker's signal may overtake the UI thread's, which tells no state. */
  lemma Overtakes(posted: seq<Event>, ui: seq<Event>, w: seq<Event>, rest: seq<Event>)
    requires Stateless(ui)
    ensures LastState(posted + w + ui + rest) == LastState(posted + ui + (w + rest))
  {
    StatelessTellsNone(ui);
    LastOfConcat(posted + w + ui, rest);
    LastOfConcat(posted + w, ui);
    LastOfConcat(posted, w);
    LastOfConcat(posted + ui, w + rest);
    LastOfConcat(posted, ui);
    LastOfConcat(w, rest);
  }

  lemma WorkerPostTelling(s: State)
    requires UiOwns(s) && Telling(s) && s.wOut != []
    ensures Telling(Apply(s, WorkerPost))
  {
    assert [s.wOut[0]] + s.wOut[1..] == s.wOut;
    if Undisturbed(s.ui) { Overtakes(s.posted, s.uiOut, [s.wOut[0]], s.wOut[1..]); }
  }

  lemma WorkerTelling(s: State, o: Outcome)
    requires Own(s) && Telling(s) && s.worker.Thread? && s.wOut == []
    ensures Telling(WorkerNext(s, o))
  {
    WorkerOwes(s, o);
    if !s.stop { WorkerPlaced(s, o); }
    FramedTelling(s, WorkerNext(s, o));
  }

  lemma FramedTelling(s: State, t: State)
    requires Telling(s) && s.worker.Thread? && s.wOut == [] && WorkerFrame(s, t) && OwesState(s, t)
    requires Placed(t)
    ensures Telling(t)
  {
    WorkerTellsWindow(s, t);
  }

  lemma StepTelling(s: State, l: Label)
    requires Own(s) && Telling(s) && Enabled(s, l)
    ensures Telling(Apply(s, l))
  {
    match l
    case UiPost => UiPostTelling(s);
    case WorkerPost => WorkerPostTelling(s);
    case UiStep(ok, now) => UiTelling(s, ok, now);
    case WorkerStep(o) => WorkerTelling(s, o);
    case _ =>
  }

  lemma {:induction false} AlwaysTelling(s: State, ls: seq<Label>, t: State)
    requires Own(s) && Telling(s) && Run(s, ls, t)
    ensures Telling(t)
    decreases ls
  {
    if ls != [] {
      StepTelling(s, ls[0]);
      StepOwn(s, ls[0]);
      AlwaysTelling(Apply(s, ls[0]), ls[1..], t);
    }
  }

  /** While no stop is requested the connection state says where the worker is, in every run;
      and while no stop disturbs, once the trays are empty it is the last state told. */
  lemma StateIsTold(ls: seq<Label>, t: State)
    requires Run(Init(), ls, t)
    ensures t.worker.Thread? && !t.stop ==> StateAt(t.worker.pc, t.conn)
    ensures Undisturbed(t.ui) && t.uiOut == [] && t.wOut == [] ==> LastTold(t.posted) == t.conn
  {
    InitOwn();
    AlwaysTelling(Init(), ls, t);
    if t.uiOut == [] && t.wOut == [] { assert t.posted + t.uiOut + t.wOut == t.posted; }
  }

  /** A session past its announcement is one the window has been told is Connected. */
  lemma SessionTellsConnected(ls: seq<Label>, t: State)
    requires Run(Init(), ls, t) && t.worker.Thread? && !t.stop
    requires t.worker.pc.OnSession? && Announced(t.worker.pc.sessionPc) && t.uiOut == [] && t.wOut == []
    ensures t.conn == Connected && LastState(t.posted) == Some(Connected)
  {
    StateIsTold(ls, t);
    InitOwn();
    AlwaysOwn(Init(), ls, t);
  }
}
