/** `stop()` always returns, is never lost, and leaves nothing behind. */
module PahoStop {
  import opened Wrappers
  import opened Backoff
  import opened PahoMachine
  import opened PahoOwnership
  import opened PahoPacing
  import opened PahoLedger

  // Termination of stop

  /** An upper bound on the worker steps left once the stop flag is up. */
  function WorkerRank(w: Worker): nat {
    if w.NoThread? then 0
    else
      match w.pc
      case OnExit(p) =>
        (match p
         case Finished => 0
         case ExitState => 1
         case ExitReset => 2
         case ExitPresence => 3
         case ExitConnected => 4)
      case OnWait(p) =>
        (match p
         case WaitDone => 5
         case WaitTest => 6
         case DoubleBackoff => 6
         case WaitBlocked => 7
         case DrawDelay => 7
         case WaitEnter => 8
         case MarkDisconnected => 8)
      case OnCleanup(p) =>
        (match p
         case AfterTry => 5
         case DropPresence => 6
         case CatchPresence => 6
         case DropConnected => 7
         case CatchConnected => 7
         case CloseSession => 8
         case StopConsumer => 9)
      case OnSession(p) =>
        (match p
         case LoopTest => 5
         case ConsumeTest => 10
         case Consume => 11
         case StartConsuming => 12
         case Subscribe(left) => 13 + left
         case MarkState => 21
         case MarkConnected => 22
         case Connect => 23
         case MarkConnecting => 24
         case MakeClient => 25)
  }

  function UiRank(ui: UiPc): nat { if ui.OnStop? then StopRank(ui.stopPc) else 0 }

  /** Posting a signal counts one; a step that may owe up to two signals counts four. */
  function Measure(s: State): nat {
    4 * (WorkerRank(s.worker) + UiRank(s.ui)) + |s.uiOut| + |s.wOut|
  }

  lemma SessionShrinks(s: State, o: Outcome)
    requires s.stop && s.worker.Thread? && s.worker.pc.OnSession?
    ensures WorkerRank(SessionNext(s, s.worker.pc.sessionPc, o).worker) < WorkerRank(s.worker)
  {}

  lemma CleanupShrinks(s: State)
    requires s.stop && s.worker.Thread? && s.worker.pc.OnCleanup?
    ensures WorkerRank(CleanupNext(s, s.worker.pc.cleanupPc).worker) < WorkerRank(s.worker)
  {}

  lemma WaitShrinks(s: State, o: Outcome)
    requires s.stop && s.worker.Thread? && s.worker.pc.OnWait?
    ensures WorkerRank(WaitNext(s, s.worker.pc.waitPc, o).worker) < WorkerRank(s.worker)
  {}

  lemma WorkerShrinks(s: State, o: Outcome)
    requires s.stop && s.worker.Thread? && s.worker.pc != OnExit(Finished)
    ensures WorkerRank(WorkerNext(s, o).worker) < WorkerRank(s.worker)
  {
    match s.worker.pc
    case OnSession(_) => SessionShrinks(s, o);
    case OnCleanup(_) => CleanupShrinks(s);
    case OnWait(_) => WaitShrinks(s, o);
    case OnExit(_) =>
  }

  lemma StopShrinks(s: State)
    requires s.ui.OnStop?
    ensures var t := StopNext(s, s.ui.stopPc);
            UiRank(t.ui) < UiRank(s.ui) && WorkerRank(t.worker) <= WorkerRank(s.worker)
  {
    if s.ui.stopPc != StopReturn { StopAdvances(s); }
  }

  /** Once the flag is up, every step of either thread, in any order, makes progress. */
  lemma StepShrinks(s: State, l: Label)
    requires Own(s) && Stopped(s.ui) && Enabled(s, l)
    ensures Measure(Apply(s, l)) < Measure(s)
  {
    match l
    case UiStep(_, _) => StopShrinks(s);
    case WorkerStep(o) => WorkerShrinks(s, o);
    case _ =>
  }

  /** A library answer that fits the worker's position. */
  function SomeOutcome(w: Worker): Outcome
    requires w.Thread?
  {
    if w.pc == OnSession(Consume) then NullMessage
    else if w.pc == OnWait(DrawDelay) then Draws(0)
    else if w.pc == OnWait(WaitBlocked) then TimesOut
    else Returns
  }

  /** A step that is possible while stop runs: post what is owed, and let the worker move only
      when the join is waiting for it. */
  function SomeStep(ui: UiPc, uiOut: seq<Event>, worker: Worker, wOut: seq<Event>): Label {
    if uiOut != [] then UiPost
    else if wOut != [] then WorkerPost
    else if ui == OnStop(StopJoin) && worker.Thread? && worker.pc != OnExit(Finished)
    then WorkerStep(SomeOutcome(worker))
    else UiStep(true, 0)
  }

  /** The join never deadlocks: some step is always possible. */
  lemma StopNotStuck(s: State)
    requires Own(s) && Paced(s) && Stopped(s.ui)
    ensures Enabled(s, SomeStep(s.ui, s.uiOut, s.worker, s.wOut))
  {
    if s.worker.Thread? && s.worker.pc == OnWait(DrawDelay) { BackoffRange(|s.worker.delays|); }
  }

  /** Every step of `ls` is taken while stop is running. */
  predicate WhileStopping(s: State, ls: seq<Label>)
    decreases ls
  {
    ls == [] || (Stopped(s.ui) && Enabled(s, ls[0]) && WhileStopping(Apply(s, ls[0]), ls[1..]))
  }

  /** Every schedule leaves stop within `Measure` steps. */
  lemma {:induction false} StopIsBounded(s: State, ls: seq<Label>)
    requires Own(s) && WhileStopping(s, ls)
    ensures |ls| <= Measure(s)
    decreases ls
  {
    if ls != [] {
      StepShrinks(s, ls[0]);
      StepOwn(s, ls[0]);
      StopIsBounded(Apply(s, ls[0]), ls[1..]);
    }
  }

  /** And the way out is always there: from wherever the worker is, stop reaches its return. */
  lemma {:induction false} StopReturns(s: State) returns (ls: seq<Label>, t: State)
    requires Own(s) && Paced(s) && Stopped(s.ui)
    ensures Run(s, ls, t) && WhileStopping(s, ls)
    ensures t.ui == OnStop(StopReturn) && t.uiOut == []
    decreases Measure(s)
  {
    if s.ui == OnStop(StopReturn) && s.uiOut == [] {
      return [], s;
    }
    StopNotStuck(s);
    var l := SomeStep(s.ui, s.uiOut, s.worker, s.wOut);
    StepShrinks(s, l);
    StepOwn(s, l);
    StepPaced(s, l);
    StillStopping(s, l);
    var m := Apply(s, l);
    ls, t := StopReturns(m);
    assert ([l] + ls)[1..] == ls;
    ls := [l] + ls;
  }

  /** Only the return itself ends the stop. */
  lemma StillStopping(s: State, l: Label)
    requires Stopped(s.ui) && Enabled(s, l)
    requires s.ui == OnStop(StopReturn) ==> !l.UiStep?
    ensures Stopped(Apply(s, l).ui)
  {
    if l.UiStep? { StopAdvances(s); }
  }

  predicate Subscribing(w: Worker) { w.Thread? && w.pc.OnSession? && w.pc.sessionPc.Subscribe? }

  /** Trays and subscriptions are short. */
  predicate Small(s: State) {
    && |s.wOut| <= 2 && |s.uiOut| <= 1
    && (Subscribing(s.worker) ==> s.worker.pc.sessionPc.left <= SUBSCRIPTIONS)
  }

  lemma SessionSmall(s: State, o: Outcome)
    requires Small(s) && s.wOut == [] && s.worker.Thread? && s.worker.pc.OnSession?
    ensures Small(SessionNext(s, s.worker.pc.sessionPc, o))
  {}

  lemma CleanupNoSubscribing(s: State)
    requires s.worker.Thread? && s.worker.pc.OnCleanup?
    ensures !Subscribing(CleanupNext(s, s.worker.pc.cleanupPc).worker)
  {}

  lemma WaitNoSubscribing(s: State, o: Outcome)
    requires s.worker.Thread? && s.worker.pc.OnWait?
    ensures !Subscribing(WaitNext(s, s.worker.pc.waitPc, o).worker)
  {}

  lemma NoSubscribing(s: State, o: Outcome)
    requires s.worker.Thread? && !s.worker.pc.OnSession?
    ensures !Subscribing(WorkerNext(s, o).worker)
  {
    match s.worker.pc
    case OnCleanup(_) => CleanupNoSubscribing(s);
    case OnWait(_) => WaitNoSubscribing(s, o);
    case OnExit(_) =>
  }

  lemma OtherSmall(s: State, t: State)
    requires Small(s) && s.wOut == [] && WorkerFrame(s, t) && TableFrame(s, t) && !Subscribing(t.worker)
    ensures Small(t)
  {}

  lemma StopSmall(s: State)
    requires Small(s) && s.uiOut == [] && s.ui.OnStop?
    ensures Small(StopNext(s, s.ui.stopPc))
  {}

  lemma ConnectSmall(s: State)
    requires Small(s) && s.uiOut == [] && s.ui.OnConnect?
    ensures Small(ConnectNext(s, s.ui.connectPc))
  {}

  lemma UiSmall(s: State, ok: bool, now: int)
    requires Small(s) && s.uiOut == []
    ensures Small(UiNext(s, ok, now))
  {
    match s.ui
    case OnStop(_) => StopSmall(s);
    case OnConnect(_) => ConnectSmall(s);
    case _ =>
  }

  lemma StepSmall(s: State, l: Label)
    requires Small(s) && Enabled(s, l)
    ensures Small(Apply(s, l))
  {
    match l
    case UiStep(ok, now) => UiSmall(s, ok, now);
    case WorkerStep(o) =>
      if s.worker.pc.OnSession? {
        SessionSmall(s, o);
      } else {
        NoSubscribing(s, o);
        OtherSmall(s, WorkerNext(s, o));
      }
    case _ =>
  }

  lemma {:induction false} AlwaysSmall(s: State, ls: seq<Label>, t: State)
    requires Small(s) && Run(s, ls, t)
    ensures Small(t)
    decreases ls
  {
    if ls != [] {
      StepSmall(s, ls[0]);
      AlwaysSmall(Apply(s, ls[0]), ls[1..], t);
    }
  }

  lemma WorkerRankBound(s: State)
    requires Small(s)
    ensures WorkerRank(s.worker) <= 25
  {}

  /** In any reachable state in which stop has raised its flag: whatever happens next, stop has
      returned after at most 147 steps, and some continuation does return. */
  lemma StopTerminates(before: seq<Label>, s: State, ls: seq<Label>) returns (rest: seq<Label>, t: State)
    requires Run(Init(), before, s) && Stopped(s.ui) && WhileStopping(s, ls)
    ensures |ls| <= 147
    ensures Run(s, rest, t) && t.ui == OnStop(StopReturn) && t.uiOut == []
  {
    AlwaysPaced(Init(), before, s);
    AlwaysSmall(Init(), before, s);
    WorkerRankBound(s);
    StopIsBounded(s, ls);
    rest, t := StopReturns(s);
  }

  // What may still happen after the flag

  /** A step that begins a connection attempt or takes a message off the queue. */
  predicate Begins(s: State, l: Label) {
    || WorkerAt(s, l, OnSession(Connect))
    || (WorkerAt(s, l, OnSession(Consume)) && l.outcome.Delivers?)
  }

  function Begun(s: State, ls: seq<Label>): nat
    decreases ls
  {
    if ls == [] || !Enabled(s, ls[0]) then 0
    else One(Begins(s, ls[0])) + Begun(Apply(s, ls[0]), ls[1..])
  }

  function BeginCredit(w: Worker): nat {
    One(w.Thread? && w.pc.OnSession?
        && (w.pc.sessionPc == MakeClient || w.pc.sessionPc == MarkConnecting
            || w.pc.sessionPc == Connect || w.pc.sessionPc == Consume))
  }

  function SleepCredit(w: Worker): int {
    if w.Thread? && (w.pc == OnWait(WaitEnter) || w.pc == OnWait(WaitBlocked)) then w.delayMs else 0
  }

  lemma SessionCredit(s: State, o: Outcome)
    requires s.stop && s.worker.Thread? && s.worker.pc.OnSession?
    ensures var t := SessionNext(s, s.worker.pc.sessionPc, o);
            One(Begins(s, WorkerStep(o))) + BeginCredit(t.worker) <= BeginCredit(s.worker)
            && SleepCredit(t.worker) == 0
  {}

  lemma WaitCredit(s: State, o: Outcome)
    requires s.stop && s.worker.Thread? && s.worker.pc.OnWait?
    requires Chosen(s.worker.pc) ==> s.worker.delayMs >= 0
    ensures var t := WaitNext(s, s.worker.pc.waitPc, o);
            BeginCredit(t.worker) == 0
            && Sleeps(s, WorkerStep(o)) + SleepCredit(t.worker) <= SleepCredit(s.worker)
  {}

  lemma CleanupCredit(s: State)
    requires s.stop && s.worker.Thread? && s.worker.pc.OnCleanup?
    ensures var w := CleanupNext(s, s.worker.pc.cleanupPc).worker;
            BeginCredit(w) == 0 && SleepCredit(w) == 0
  {}

  lemma WorkerCredit(s: State, o: Outcome)
    requires s.stop && s.worker.Thread?
    requires Chosen(s.worker.pc) ==> s.worker.delayMs >= 0
    ensures One(Begins(s, WorkerStep(o))) + BeginCredit(WorkerNext(s, o).worker) <= BeginCredit(s.worker)
    ensures Sleeps(s, WorkerStep(o)) + SleepCredit(WorkerNext(s, o).worker) <= SleepCredit(s.worker)
  {
    match s.worker.pc
    case OnSession(_) => SessionCredit(s, o);
    case OnWait(_) => WaitCredit(s, o);
    case OnCleanup(_) => CleanupCredit(s);
    case OnExit(_) =>
  }

  lemma StepCredit(s: State, l: Label)
    requires Own(s) && Paced(s) && Stopped(s.ui) && Enabled(s, l)
    ensures One(Begins(s, l)) + BeginCredit(Apply(s, l).worker) <= BeginCredit(s.worker)
    ensures Sleeps(s, l) + SleepCredit(Apply(s, l).worker) <= SleepCredit(s.worker)
  {
    if s.worker.Thread? && Chosen(s.worker.pc) { ChosenRange(s); }
    match l
    case WorkerStep(o) => WorkerCredit(s, o);
    case _ =>
  }

  /** After the flag is up the worker begins at most one more connection or message in all,
      and sleeps through at most one wait, of at most ten seconds, even if it missed the
      notification. */
  lemma {:induction false} StopIsNotLost(s: State, ls: seq<Label>)
    requires Own(s) && Paced(s) && WhileStopping(s, ls)
    ensures Begun(s, ls) <= BeginCredit(s.worker) <= 1
    ensures Slept(s, ls) <= SleepCredit(s.worker) <= CAP_MS
    decreases ls
  {
    if s.worker.Thread? && Chosen(s.worker.pc) { ChosenRange(s); }
    if ls != [] {
      StepCredit(s, ls[0]);
      StepOwn(s, ls[0]);
      StepPaced(s, ls[0]);
      StopIsNotLost(Apply(s, ls[0]), ls[1..]);
    }
  }

  /** The same from the first state on: however a run got to a raised stop flag. */
  lemma StopIsNeverLost(before: seq<Label>, s: State, ls: seq<Label>)
    requires Run(Init(), before, s) && WhileStopping(s, ls)
    ensures Begun(s, ls) <= 1
    ensures Slept(s, ls) <= CAP_MS
  {
    AlwaysPaced(Init(), before, s);
    StopIsNotLost(s, ls);
  }

  /** A notification that finds the worker blocked ends its wait: after it nothing is slept
      through, unless the worker had tested the flag and not yet blocked. */
  lemma NotifyWakes(before: seq<Label>, s: State, now: int, ls: seq<Label>)
    requires Run(Init(), before, s) && s.ui == OnStop(StopNotify) && s.uiOut == []
    requires WhileStopping(Apply(s, UiStep(true, now)), ls)
    requires !(s.worker.Thread? && s.worker.pc == OnWait(WaitEnter))
    ensures Slept(Apply(s, UiStep(true, now)), ls) <= 0
  {
    AlwaysPaced(Init(), before, s);
    var l := UiStep(true, now);
    StepOwn(s, l);
    StepPaced(s, l);
    StopIsNotLost(Apply(s, l), ls);
  }

  lemma WorkerLives(s: State, l: Label)
    requires UiOwns(s) && Enabled(s, l) && s.worker.Thread?
    ensures Apply(s, l).worker.Thread? && s.stop ==> Apply(s, l).stop
    ensures !Apply(s, l).worker.Thread? ==> s.worker.pc == OnExit(Finished)
  {
    match l
    case UiStep(ok, now) =>
      if s.ui.OnStop? { assert s.ui.stopPc != StopJoin ==> StopNext(s, s.ui.stopPc).worker.Thread?; }
    case _ =>
  }

  /** At most one worker: a thread is started only where none exists, and while it lives the
      stop flag never falls. */
  lemma OneWorker(ls: seq<Label>, s: State, l: Label)
    requires Run(Init(), ls, s) && Enabled(s, l)
    ensures s.ui == OnConnect(ConnectStart) ==> s.worker.NoThread? && !s.stop
    ensures s.worker.Thread? && Apply(s, l).worker.Thread? && s.stop ==> Apply(s, l).stop
    ensures s.worker.Thread? && !Apply(s, l).worker.Thread? ==> s.worker.pc == OnExit(Finished)
  {
    InitOwn();
    AlwaysOwn(Init(), ls, s);
    if s.worker.Thread? { WorkerLives(s, l); }
  }

  // The postcondition

  function LastState(es: seq<Event>): Option<ConnState> {
    if es == [] then None
    else if es[|es| - 1].StateChanged? then Some(es[|es| - 1].to)
    else LastState(es[..|es| - 1])
  }

  /** At the return of stop, Disconnected is the last state told or about to be told. */
  predicate Told(s: State) {
    s.ui == OnStop(StopReturn) ==> LastState(s.posted + s.uiOut) == Some(Disconnected)
  }

  lemma AnnounceTold(s: State)
    requires StateOwns(s) && s.worker.NoThread? && s.ui == OnStop(StopState)
    ensures Told(StopNext(s, StopState))
  {
    var t := StopNext(s, StopState);
    assert t.uiOut == [StateChanged(Disconnected)];
    assert (t.posted + t.uiOut)[|t.posted|] == StateChanged(Disconnected);
  }

  lemma StopTold(s: State)
    requires UiOwns(s) && StateOwns(s) && s.ui.OnStop?
    ensures Told(StopNext(s, s.ui.stopPc))
  {
    if s.ui.stopPc == StopState {
      AnnounceTold(s);
    } else if s.ui.stopPc != StopReturn {
      StopAdvances(s);
    }
  }

  lemma StepTold(s: State, l: Label)
    requires Own(s) && Told(s) && Enabled(s, l)
    ensures Told(Apply(s, l))
  {
    match l
    case UiPost => assert s.posted + s.uiOut == Apply(s, l).posted + Apply(s, l).uiOut;
    case UiStep(ok, now) => if s.ui.OnStop? { StopTold(s); }
    case _ =>
  }

  lemma {:induction false} AlwaysTold(s: State, ls: seq<Label>, t: State)
    requires Own(s) && Told(s) && Run(s, ls, t)
    ensures Told(t)
    decreases ls
  {
    if ls != [] {
      StepOwn(s, ls[0]);
      StepTold(s, ls[0]);
      AlwaysTold(Apply(s, ls[0]), ls[1..], t);
    }
  }

  /** When stop returns: no worker, no client, both flags down, no pending ping, and the last
      state the window was told is Disconnected, which is also the current one. */
  predicate LeftClean(s: State) {
    && s.worker.NoThread? && s.wOut == [] && !s.client
    && !s.connected && !s.presence && s.pending == map[] && s.stop
    && s.conn == Disconnected && LastState(s.posted) == Some(Disconnected)
  }

  lemma ReturnIsClean(s: State)
    requires Own(s) && Fates(s) && Told(s) && s.ui == OnStop(StopReturn) && s.uiOut == []
    ensures LeftClean(s)
  {
    assert s.posted + s.uiOut == s.posted;
  }

  lemma StopPostcondition(ls: seq<Label>, t: State)
    requires Run(Init(), ls, t) && t.ui == OnStop(StopReturn) && t.uiOut == []
    ensures LeftClean(t)
  {
    InitBalanced();
    AlwaysBalanced(Init(), ls, t);
    AlwaysTold(Init(), ls, t);
    ReturnIsClean(t);
  }
}
