/** Who may write what: the UI thread writes the shared flags only while no worker exists,
    and the worker's position determines them while it lives. */
module PahoOwnership {
  import opened PahoMachine

  /** Steps of `stop` still to run. */
  function StopRank(pc: StopPc): nat {
    match pc
    case StopFlag => 12
    case StopAnnounce => 11
    case StopConsuming => 10
    case StopDisconnect => 9
    case StopNotify => 8
    case StopJoin => 7
    case StopReset => 6
    case StopClear => 5
    case StopConnected => 4
    case StopPresence => 3
    case StopState => 2
    case StopReturn => 1
  }

  predicate Stopped(ui: UiPc) { ui.OnStop? && ui.stopPc != StopFlag }

  predicate AfterJoin(ui: UiPc) { ui.OnStop? && StopRank(ui.stopPc) < 7 }

  /** In `publishCmdPing`, past the connected check. */
  predicate Pinging(ui: UiPc) { ui.OnPing? && ui.pingPc != PingCheck }

  /** The connection is announced from `MarkState` on, until a cleanup withdraws it. */
  predicate Up(pc: WorkerPc) {
    match pc
    case OnSession(p) =>
      p == MarkState || p.Subscribe? || p == StartConsuming || p == ConsumeTest || p == Consume
    case OnCleanup(p) => p == StopConsumer || p == CloseSession || p == DropConnected
    case OnWait(_) => false
    case OnExit(_) => false
  }

  predicate MayShowPresence(pc: WorkerPc) {
    pc == OnSession(ConsumeTest) || pc == OnSession(Consume)
    || (pc.OnCleanup? && pc.cleanupPc != AfterTry)
  }

  /** The UI thread's own discipline. */
  predicate UiOwns(s: State) {
    && (s.ui.OnConnect? || AfterJoin(s.ui) ==> s.worker.NoThread?)
    && (Pinging(s.ui) ==> s.worker.Thread?)
    && (Stopped(s.ui) ==> s.stop)
    && (s.ui.OnConnect? && s.ui.connectPc != ConnectFlag ==> !s.stop)
    && (s.worker.Thread? && !Stopped(s.ui) ==> !s.stop)
    && (s.worker.NoThread? ==> s.wOut == [] && !s.connected && !s.presence && !s.client)
  }

  /** What the worker's position says about the flags it owns. */
  predicate WorkerOwns(s: State) {
    s.worker.Thread? ==>
      var pc := s.worker.pc;
      && (Up(pc) ==> s.connected)
      && (s.connected ==> Up(pc) || pc == OnCleanup(CatchConnected))
      && (s.presence ==> MayShowPresence(pc))
      && (pc == OnCleanup(CatchConnected) && s.presence ==> s.connected)
      && (pc.OnExit? ==> s.stop)
      && (pc == OnExit(ExitState) || pc == OnExit(Finished) ==> !s.client)
      && (pc == OnExit(Finished) ==> s.conn == Stopping)
  }

  /** The connection state around the join. */
  predicate StateOwns(s: State) {
    s.ui.OnStop? ==>
      var rank := StopRank(s.ui.stopPc);
      && (rank <= 10 && s.worker.NoThread? && rank > 1 ==> s.conn == Stopping)
      && (rank == 1 ==> s.conn == Disconnected)
  }

  predicate Own(s: State) { UiOwns(s) && WorkerOwns(s) && StateOwns(s) }

  lemma InitOwn()
    ensures Own(Init())
  {}

  lemma ConnectOwn(s: State)
    requires Own(s) && s.ui.OnConnect?
    ensures Own(ConnectNext(s, s.ui.connectPc))
  {}

  lemma HaltAdvances(s: State, pc: StopPc)
    requires Halting(pc)
    ensures var t := HaltNext(s, pc);
            t.ui.OnStop? && StopRank(t.ui.stopPc) == StopRank(pc) - 1
  {}

  lemma WithdrawAdvances(s: State, pc: StopPc)
    requires !Halting(pc) && !Releasing(pc)
    ensures var t := WithdrawNext(s, pc);
            t.ui.OnStop? && StopRank(t.ui.stopPc) == StopRank(pc) - 1
  {}

  /** Stop runs straight through its steps. */
  lemma StopAdvances(s: State)
    requires s.ui.OnStop? && s.ui.stopPc != StopReturn
    ensures var t := StopNext(s, s.ui.stopPc);
            t.ui.OnStop? && StopRank(t.ui.stopPc) == StopRank(s.ui.stopPc) - 1
  {
    if Halting(s.ui.stopPc) {
      HaltAdvances(s, s.ui.stopPc);
    } else if !Releasing(s.ui.stopPc) {
      WithdrawAdvances(s, s.ui.stopPc);
    }
  }

  lemma HaltOwn(s: State)
    requires Own(s) && s.ui.OnStop? && Halting(s.ui.stopPc) && (s.ui == OnStop(StopJoin) ==> Joinable(s))
    ensures Own(HaltNext(s, s.ui.stopPc))
  {}

  lemma ReleaseOwn(s: State)
    requires Own(s) && s.ui.OnStop? && Releasing(s.ui.stopPc)
    ensures Own(ReleaseNext(s, s.ui.stopPc))
  {}

  lemma WithdrawOwn(s: State)
    requires Own(s) && s.ui.OnStop? && !Halting(s.ui.stopPc) && !Releasing(s.ui.stopPc)
    ensures Own(WithdrawNext(s, s.ui.stopPc))
  {}

  lemma StopOwn(s: State)
    requires Own(s) && s.ui.OnStop? && (s.ui == OnStop(StopJoin) ==> Joinable(s))
    ensures Own(StopNext(s, s.ui.stopPc))
  {
    if Halting(s.ui.stopPc) {
      HaltOwn(s);
    } else if Releasing(s.ui.stopPc) {
      ReleaseOwn(s);
    } else {
      WithdrawOwn(s);
    }
  }

  lemma PingOwn(s: State, ok: bool, now: int)
    requires Own(s) && s.ui.OnPing?
    ensures Own(PingNext(s, s.ui.pingPc, s.ui.ping, ok, now))
  {}

  lemma SessionOwn(s: State, o: Outcome)
    requires UiOwns(s) && WorkerOwns(s) && s.worker.Thread?
    requires s.worker.pc.OnSession? && s.worker.pc != OnSession(Consume)
    ensures WorkerOwns(SessionNext(s, s.worker.pc.sessionPc, o))
  {}

  lemma ConsumeOwn(s: State, o: Outcome)
    requires UiOwns(s) && WorkerOwns(s) && s.worker.Thread? && s.worker.pc == OnSession(Consume)
    ensures WorkerOwns(ConsumeNext(s, o))
  {}

  lemma CleanupOwn(s: State)
    requires UiOwns(s) && WorkerOwns(s) && s.worker.Thread? && s.worker.pc.OnCleanup?
    ensures WorkerOwns(CleanupNext(s, s.worker.pc.cleanupPc))
  {}

  lemma WaitOwn(s: State, o: Outcome)
    requires UiOwns(s) && WorkerOwns(s) && s.worker.Thread? && s.worker.pc.OnWait?
    ensures WorkerOwns(WaitNext(s, s.worker.pc.waitPc, o))
  {}

  lemma ExitOwn(s: State)
    requires UiOwns(s) && WorkerOwns(s) && s.worker.Thread? && s.worker.pc.OnExit?
    ensures WorkerOwns(ExitNext(s, s.worker.pc.exitPc))
  {}

  lemma UiStepOwn(s: State, ok: bool, now: int)
    requires Own(s) && s.ui != Idle && (s.ui == OnStop(StopJoin) ==> Joinable(s))
    ensures Own(UiNext(s, ok, now))
  {
    match s.ui
    case OnConnect(_) => ConnectOwn(s);
    case OnStop(_) => StopOwn(s);
    case OnPing(_, _) => PingOwn(s, ok, now);
    case OnTimeout(_, _) =>
  }

  lemma WorkerStepOwn(s: State, o: Outcome)
    requires Own(s) && s.worker.Thread?
    ensures Own(WorkerNext(s, o))
  {
    match s.worker.pc
    case OnSession(pc) => if pc == Consume { ConsumeOwn(s, o); } else { SessionOwn(s, o); }
    case OnCleanup(_) => CleanupOwn(s);
    case OnWait(_) => WaitOwn(s, o);
    case OnExit(_) => ExitOwn(s);
  }

  lemma StepOwn(s: State, l: Label)
    requires Own(s) && Enabled(s, l)
    ensures Own(Apply(s, l))
  {
    match l
    case UiStep(ok, now) => UiStepOwn(s, ok, now);
    case WorkerStep(o) => WorkerStepOwn(s, o);
    case _ =>
  }

  /** Ownership holds in every state any schedule reaches. */
  lemma {:induction false} AlwaysOwn(s: State, ls: seq<Label>, t: State)
    requires Own(s) && Run(s, ls, t)
    ensures Own(t)
    decreases ls
  {
    if ls != [] {
      StepOwn(s, ls[0]);
      AlwaysOwn(Apply(s, ls[0]), ls[1..], t);
    }
  }
}
