/** The client object itself. Its methods update the fields step by step; any schedule of the
    two threads keeps the object valid, and what is promised of the ping table, of the signals
    and of stop is promised of these fields. */
module PahoClient {
  import opened Wrappers
  import opened GuiMessages
  import opened PahoMachine
  import opened PahoOwnership
  import opened PahoSignals
  import opened PahoLedger
  import opened PahoPacing
  import opened PahoStop

  /** Everything the machine keeps, in one place. */
  ghost predicate Good(s: State) { Balanced(s) && Paced(s) && SignalsAgree(s) && Told(s) }

  lemma InitGood()
    ensures Good(Init())
  {
    InitBalanced();
  }

  lemma StepGood(s: State, l: Label)
    requires Good(s) && Enabled(s, l)
    ensures Good(Apply(s, l))
  {
    StepBalanced(s, l);
    StepPaced(s, l);
    StepSignals(s, l);
    StepTold(s, l);
  }

  predicate Opening(pc: SessionPc) {
    pc == LoopTest || pc == MakeClient || pc == MarkConnecting || pc == Connect
    || pc == MarkConnected || pc == MarkState
  }

  predicate Announcing(pc: SessionPc) { pc == MarkConnecting || pc == MarkConnected || pc == MarkState }

  class MqttPahoClient {
    var stopFlag: bool
    var connected: bool
    var presence: bool
    var state: ConnState
    var client: bool
    var pendingPings: map<PingId, int>
    // Where the two threads are, and the signals each still has to queue.
    var ui: UiPc
    var uiOut: seq<Event>
    var worker: Worker
    var wOut: seq<Event>
    // The UI event loop: armed timers and queued signals.
    var timers: set<PingId>
    var posted: seq<Event>
    ghost var ledger: Ledger

    ghost function View(): State
      reads this
    {
      State(stopFlag, connected, presence, state, client, ui, uiOut, worker, wOut,
            pendingPings, timers, posted, ledger)
    }

    ghost predicate Valid()
      reads this
    {
      Good(View())
    }

    constructor ()
      ensures Valid() && View() == Init()
    {
      InitGood();
      stopFlag, connected, presence, state, client := false, false, false, Disconnected, false;
      ui, uiOut, worker, wOut := Idle, [], NoThread, [];
      pendingPings, timers, posted := map[], {}, [];
      ledger := Ledger({}, {}, {}, {}, {});
    }

    // The three setters: an atomic exchange, and a signal owed when the value changed.

    method SetConnected(v: bool) returns (owed: seq<Event>)
      modifies this`connected
      ensures connected == v && owed == Owed(old(connected), v, ConnectedChanged(v))
    {
      var prev := connected;
      connected := v;
      owed := [];
      if prev != v { owed := [ConnectedChanged(v)]; }
    }

    method SetPresence(v: bool) returns (owed: seq<Event>)
      modifies this`presence
      ensures presence == v && owed == Owed(old(presence), v, PresenceChanged(v))
    {
      var prev := presence;
      presence := v;
      owed := [];
      if prev != v { owed := [PresenceChanged(v)]; }
    }

    method SetState(to: ConnState) returns (owed: seq<Event>)
      modifies this`state
      ensures state == to && owed == Owed(old(state), to, StateChanged(to))
    {
      var prev := state;
      state := to;
      if prev == to { return []; }
      owed := [StateChanged(to)];
    }

    // A step that writes a flag, owes its signal and moves on, on either thread

    method TellConnected(next: UiPc)
      modifies this`connected, this`uiOut, this`ui
      ensures View() == UiConnected(old(View()), next)
    {
      uiOut := SetConnected(false);
      ui := next;
    }

    method TellPresence(next: UiPc)
      modifies this`presence, this`uiOut, this`ui
      ensures View() == UiPresence(old(View()), next)
    {
      uiOut := SetPresence(false);
      ui := next;
    }

    method TellState(to: ConnState, next: UiPc)
      modifies this`state, this`uiOut, this`ui
      ensures View() == UiState(old(View()), to, next)
    {
      uiOut := SetState(to);
      ui := next;
    }

    method SayConnected(v: bool, next: WorkerPc)
      requires worker.Thread?
      modifies this`connected, this`wOut, this`worker
      ensures View() == WorkerConnected(old(View()), v, next)
    {
      wOut := SetConnected(v);
      worker := worker.(pc := next);
    }

    method SayPresence(v: bool, next: WorkerPc)
      requires worker.Thread?
      modifies this`presence, this`wOut, this`worker
      ensures View() == WorkerPresence(old(View()), v, next)
    {
      wOut := SetPresence(v);
      worker := worker.(pc := next);
    }

    method SayState(to: ConnState, next: WorkerPc)
      requires worker.Thread?
      modifies this`state, this`wOut, this`worker
      ensures View() == WorkerState(old(View()), to, next)
    {
      wOut := SetState(to);
      worker := worker.(pc := next);
    }

    // UI thread

    method ConnectStep()
      requires ui.OnConnect?
      modifies this
      ensures View() == ConnectNext(old(View()), old(ui.connectPc))
    {
      match ui.connectPc
      case ConnectFlag =>
        stopFlag := false;
        ui := OnConnect(ConnectConnected);
      case ConnectConnected =>
        TellConnected(OnConnect(ConnectPresence));
      case ConnectPresence =>
        TellPresence(OnConnect(ConnectState));
      case ConnectState =>
        TellState(Connecting, OnConnect(ConnectStart));
      case ConnectStart =>
        worker := Thread(OnSession(LoopTest), 1000, 0, []);
        ui := Idle;
    }

    /** Stop, up to and including the join. */
    method StopStep()
      requires ui.OnStop? && Halting(ui.stopPc)
      modifies this
      ensures View() == HaltNext(old(View()), old(ui.stopPc))
    {
      match ui.stopPc
      case StopFlag =>
        stopFlag := true;
        ui := OnStop(StopAnnounce);
      case StopAnnounce =>
        TellState(Stopping, OnStop(StopConsuming));
      case StopConsuming =>
        ui := OnStop(StopDisconnect);
      case StopDisconnect =>
        ui := OnStop(StopNotify);
      case StopNotify =>
        if worker.Thread? && worker.pc == OnWait(WaitBlocked) {
          worker := worker.(pc := OnWait(WaitTest));
        }
        ui := OnStop(StopJoin);
      case StopJoin =>
        worker := NoThread;
        ui := OnStop(StopReset);
    }

    /** With the worker gone: drop the client, empty the ping table, return. */
    method ReleaseStep()
      requires ui.OnStop? && Releasing(ui.stopPc)
      modifies this
      ensures View() == ReleaseNext(old(View()), old(ui.stopPc))
    {
      match ui.stopPc
      case StopReset =>
        client := false;
        ui := OnStop(StopClear);
      case StopClear =>
        ledger := ledger.(cleared := ledger.cleared + pendingPings.Keys);
        pendingPings := map[];
        ui := OnStop(StopConnected);
      case StopReturn =>
        ui := Idle;
    }

    method WithdrawStep()
      requires ui.OnStop? && !Halting(ui.stopPc) && !Releasing(ui.stopPc)
      modifies this
      ensures View() == WithdrawNext(old(View()), old(ui.stopPc))
    {
      match ui.stopPc
      case StopConnected =>
        TellConnected(OnStop(StopPresence));
      case StopPresence =>
        TellPresence(OnStop(StopState));
      case StopState =>
        TellState(Disconnected, OnStop(StopReturn));
    }

    method PingStep(ok: bool, now: int)
      requires ui.OnPing?
      modifies this
      ensures View() == PingNext(old(View()), old(ui.pingPc), old(ui.ping), ok, now)
    {
      var id := ui.ping;
      match ui.pingPc
      case PingCheck =>
        ui := if client && connected then OnPing(PingPublish, id) else Idle;
      case PingPublish =>
        ui := if ok then OnPing(PingInsert, id) else Idle;
      case PingInsert =>
        pendingPings := pendingPings[id := now];
        ledger := ledger.(inserted := ledger.inserted + {id});
        ui := OnPing(PingPending, id);
      case PingPending =>
        uiOut := [PingUpdated(id, -1, false)];
        ui := OnPing(PingArm, id);
      case PingArm =>
        timers := timers + {id};
        ui := Idle;
    }

    method TimeoutStep()
      requires ui.OnTimeout?
      modifies this
      ensures View() == TimeoutNext(old(View()), old(ui.timeoutPc), old(ui.ping))
    {
      var id := ui.ping;
      match ui.timeoutPc
      case TimeoutErase =>
        var removed := false;
        if id in pendingPings {
          pendingPings := pendingPings - {id};
          ledger := ledger.(timedOut := ledger.timedOut + {id});
          removed := true;
        }
        ui := OnTimeout(TimeoutReport(removed), id);
      case TimeoutReport(removed) =>
        uiOut := [];
        ui := Idle;
        if !removed || stopFlag { return; }
        uiOut := [PingUpdated(id, -1, true)];
    }

    // Worker thread

    method MoveTo(pc: WorkerPc)
      requires worker.Thread?
      modifies this`worker
      ensures worker == old(worker).(pc := pc)
    {
      worker := worker.(pc := pc);
    }

    /** From the loop test to the connect call. */
    method OpenStep(o: Outcome)
      requires worker.Thread? && worker.pc.OnSession?
      requires Opening(worker.pc.sessionPc) && !Announcing(worker.pc.sessionPc)
      modifies this
      ensures View() == SessionNext(old(View()), old(worker.pc.sessionPc), o)
    {
      match worker.pc.sessionPc
      case LoopTest =>
        MoveTo(if stopFlag then OnExit(ExitConnected) else OnSession(MakeClient));
      case MakeClient =>
        client := true;
        MoveTo(OnSession(MarkConnecting));
      case Connect =>
        MoveTo(if o.Throws? then OnCleanup(CatchConnected) else OnSession(MarkConnected));
    }

    method AnnounceStep(o: Outcome)
      requires worker.Thread? && worker.pc.OnSession? && Announcing(worker.pc.sessionPc)
      modifies this
      ensures View() == SessionNext(old(View()), old(worker.pc.sessionPc), o)
    {
      match worker.pc.sessionPc
      case MarkConnecting =>
        SayState(Connecting, OnSession(Connect));
      case MarkConnected =>
        SayConnected(true, OnSession(MarkState));
      case MarkState =>
        SayState(Connected, OnSession(Subscribe(7)));
    }

    method SubscribeStep(o: Outcome)
      requires worker.Thread? && worker.pc.OnSession?
      requires !Opening(worker.pc.sessionPc) && worker.pc.sessionPc != Consume
      modifies this
      ensures View() == SessionNext(old(View()), old(worker.pc.sessionPc), o)
    {
      match worker.pc.sessionPc
      case Subscribe(left) =>
        MoveTo(if o.Throws? then OnCleanup(CatchConnected)
               else if left > 1 then OnSession(Subscribe(left - 1)) else OnSession(StartConsuming));
      case StartConsuming =>
        if o.Throws? {
          MoveTo(OnCleanup(CatchConnected));
        } else {
          worker := Thread(OnSession(ConsumeTest), 1000, worker.delayMs, []);
        }
      case ConsumeTest =>
        MoveTo(if stopFlag then OnCleanup(StopConsumer) else OnSession(Consume));
    }

    /** One message off the queue: presence sets the flag, an ack settles a pending ping. */
    method ConsumeStep(o: Outcome)
      requires worker.Thread? && worker.pc == OnSession(Consume) && wOut == []
      modifies this
      ensures View() == ConsumeNext(old(View()), o)
    {
      if o.Throws? {
        MoveTo(OnCleanup(CatchConnected));
      } else if o.Delivers? {
        if o.msg.topic == Presence {
          var announced := PresenceOf(o.msg.payload);
          if announced.Some? { wOut := SetPresence(announced.value); }
        } else if o.msg.topic == Ack {
          var ack := AckOf(o.msg.payload);
          if ack.Some? { HandleAck(ack.value, o.now); }
        }
        MoveTo(OnSession(ConsumeTest));
      } else {
        MoveTo(OnCleanup(StopConsumer));
      }
    }

    method HandleAck(ack: AckBody, now: int)
      requires worker.Thread?
      modifies this`pendingPings, this`wOut, this`ledger
      ensures View() == SettleAck(old(View()), ack, now)
    {
      if ack.id in pendingPings {
        var sentMs := pendingPings[ack.id];
        pendingPings := pendingPings - {ack.id};
        ledger := ledger.(ponged := ledger.ponged + {ack.id});
        wOut := [PingUpdated(ack.id, Max(0, now - sentMs), false),
                 AckReceived(if ack.kind == "" then "ping" else ack.kind, ack.id, ack.ok)];
        return;
      }
      wOut := [AckReceived(ack.kind, ack.id, ack.ok)];
    }

    method CleanupStep()
      requires worker.Thread? && worker.pc.OnCleanup?
      modifies this
      ensures View() == CleanupNext(old(View()), old(worker.pc.cleanupPc))
    {
      match worker.pc.cleanupPc
      case StopConsumer => MoveTo(OnCleanup(CloseSession));
      case CloseSession => MoveTo(OnCleanup(DropConnected));
      case DropConnected =>
        SayConnected(false, OnCleanup(DropPresence));
      case DropPresence =>
        SayPresence(false, OnCleanup(AfterTry));
      case CatchConnected =>
        SayConnected(false, OnCleanup(CatchPresence));
      case CatchPresence =>
        SayPresence(false, OnCleanup(AfterTry));
      case AfterTry =>
        MoveTo(if stopFlag then OnExit(ExitConnected) else OnWait(MarkDisconnected));
    }

    method WaitStep(o: Outcome)
      requires worker.Thread? && worker.pc.OnWait?
      requires worker.pc.waitPc != DrawDelay && worker.pc.waitPc != DoubleBackoff
      modifies this
      ensures View() == WaitNext(old(View()), old(worker.pc.waitPc), o)
    {
      if worker.pc == OnWait(MarkDisconnected) {
        SayState(Disconnected, OnWait(DrawDelay));
        return;
      }
      var next := match worker.pc.waitPc
        case WaitTest => if stopFlag then OnWait(WaitDone) else OnWait(WaitEnter)
        case WaitEnter => OnWait(WaitBlocked)
        case WaitBlocked => if o.TimesOut? then OnWait(WaitDone) else OnWait(WaitTest)
        case WaitDone => if stopFlag then OnExit(ExitConnected) else OnWait(DoubleBackoff);
      MoveTo(next);
    }

    /** The arithmetic of the wait: the jittered, clamped delay, and the doubling after it. */
    method PaceStep(o: Outcome)
      requires worker.Thread? && (worker.pc == OnWait(DrawDelay) || worker.pc == OnWait(DoubleBackoff))
      modifies this`worker
      ensures View() == WaitNext(old(View()), old(worker.pc.waitPc), o)
    {
      if worker.pc == OnWait(DrawDelay) {
        var delay := worker.backoffMs + if o.Draws? then o.r else 0;
        if delay < 200 { delay := 200; } else if 10000 < delay { delay := 10000; }
        worker := Thread(OnWait(WaitTest), worker.backoffMs, delay, worker.delays + [delay]);
      } else {
        worker := Thread(OnSession(LoopTest), Min(worker.backoffMs * 2, 10000), worker.delayMs, worker.delays);
      }
    }

    method ExitStep()
      requires worker.Thread? && worker.pc.OnExit?
      modifies this
      ensures View() == ExitNext(old(View()), old(worker.pc.exitPc))
    {
      match worker.pc.exitPc
      case ExitConnected =>
        SayConnected(false, OnExit(ExitPresence));
      case ExitPresence =>
        SayPresence(false, OnExit(ExitReset));
      case ExitReset =>
        client := false;
        MoveTo(OnExit(ExitState));
      case ExitState =>
        SayState(if stopFlag then Stopping else Disconnected, OnExit(Finished));
      case Finished =>
    }

    // Scheduling

    method UiTurn(ok: bool, now: int)
      requires ui != Idle
      modifies this
      ensures View() == UiNext(old(View()), ok, now)
    {
      match ui
      case OnConnect(_) => ConnectStep();
      case OnStop(pc) =>
        if Halting(pc) { StopStep(); } else if Releasing(pc) { ReleaseStep(); } else { WithdrawStep(); }
      case OnPing(_, _) => PingStep(ok, now);
      case OnTimeout(_, _) => TimeoutStep();
    }

    method WorkerTurn(o: Outcome)
      requires worker.Thread? && wOut == []
      modifies this
      ensures View() == WorkerNext(old(View()), o)
    {
      match worker.pc
      case OnSession(pc) =>
        if pc == Consume { ConsumeStep(o); }
        else if Announcing(pc) { AnnounceStep(o); }
        else if Opening(pc) { OpenStep(o); }
        else { SubscribeStep(o); }
      case OnCleanup(_) => CleanupStep();
      case OnWait(pc) => if pc == DrawDelay || pc == DoubleBackoff { PaceStep(o); } else { WaitStep(o); }
      case OnExit(_) => ExitStep();
    }

    method Advance(l: Label)
      requires Enabled(View(), l)
      modifies this
      ensures View() == Apply(old(View()), l)
    {
      match l
      case UiPost => posted, uiOut := posted + [uiOut[0]], uiOut[1..];
      case WorkerPost => posted, wOut := posted + [wOut[0]], wOut[1..];
      case CallConnect => if !worker.Thread? { ui := OnConnect(ConnectFlag); }
      case CallStop => ui := OnStop(StopFlag);
      case CallPing(id) =>
        ledger := ledger.(issued := ledger.issued + {id});
        ui := OnPing(PingCheck, id);
      case TimerFires(id) =>
        timers := timers - {id};
        ui := OnTimeout(TimeoutErase, id);
      case UiStep(ok, now) => UiTurn(ok, now);
      case WorkerStep(o) => WorkerTurn(o);
    }

    method Step(l: Label)
      requires Valid() && Enabled(View(), l)
      modifies this
      ensures Valid() && View() == Apply(old(View()), l)
    {
      StepGood(View(), l);
      Advance(l);
    }

    /** Any schedule the machine allows drives the object to the machine's state. Afterwards the
        signals posted are in the language and end at the flags, no ping has two outcomes, and
        every pending ping of an idle client has its timer. */
    method Execute(ls: seq<Label>, ghost t: State)
      requires Valid() && Run(View(), ls, t)
      modifies this
      ensures Valid() && View() == t
      ensures InLanguage(Signals(posted))
      ensures wOut == [] ==> Read(Signals(posted)) == Some(Flags(connected, presence))
      ensures forall id :: Count(posted, id, Pong) + Count(posted, id, Timeout) <= 1
      ensures ui == Idle ==> pendingPings.Keys <= timers
      ensures ui == Idle && (timers == {} || worker == NoThread) ==> pendingPings == map[]
    {
      var k := 0;
      while k < |ls|
        invariant 0 <= k <= |ls|
        invariant Valid() && Run(View(), ls[k..], t)
      {
        assert ls[k..][0] == ls[k] && ls[k..][1..] == ls[k + 1..];
        Step(ls[k]);
        k := k + 1;
      }
      AgreeingTrace(View());
      BalancedConserves(View());
      BalancedLeakless(View());
    }

    /** Whether a step can be taken while stop runs, read off the fields. */
    predicate Ready(l: Label)
      reads this
    {
      match l
      case UiPost => uiOut != []
      case WorkerPost => wOut != []
      case UiStep(_, _) =>
        uiOut == [] && (ui == OnStop(StopJoin) ==>
                          worker.NoThread? || (worker.pc == OnExit(Finished) && wOut == []))
      case WorkerStep(o) =>
        worker.Thread? && worker.pc != OnExit(Finished) && wOut == [] && OutcomeFits(worker, o)
      case _ => false
    }

    lemma ReadyIsEnabled(l: Label)
      requires Stopped(ui) && Ready(l)
      ensures Enabled(View(), l)
    {}

    /** One step of either thread while stop runs: the proposed one if it is possible, else one
        that is. Either way stop comes closer to its return. */
    method StopTurn(proposal: Label)
      requires Valid() && Stopped(ui) && !(ui == OnStop(StopReturn) && uiOut == [])
      modifies this
      ensures Valid() && Stopped(ui)
      ensures Measure(View()) < old(Measure(View()))
    {
      var l := proposal;
      if Ready(l) {
        ReadyIsEnabled(l);
      } else {
        StopNotStuck(View());
        l := SomeStep(ui, uiOut, worker, wOut);
      }
      StepShrinks(View(), l);
      StillStopping(View(), l);
      Step(l);
    }

    method RaiseStopFlag()
      requires Valid() && ui == Idle && uiOut == []
      modifies this
      ensures Valid() && Stopped(ui)
    {
      Step(CallStop);
      Step(UiStep(true, 0));
    }

    method ReturnFromStop()
      requires Valid() && ui == OnStop(StopReturn) && uiOut == []
      modifies this
      ensures Valid() && ui == Idle && uiOut == []
      ensures LeftClean(View())
    {
      ReturnIsClean(View());
      Step(UiStep(true, 0));
    }

    /** The whole of stop, against any interleaving: `schedule` proposes the step of either
        thread to take next and any library answer to it. Stop returns, and leaves nothing
        behind. */
    method Stop(schedule: nat -> Label)
      requires Valid() && ui == Idle && uiOut == []
      modifies this
      ensures Valid() && ui == Idle && uiOut == []
      ensures worker == NoThread && !client && stopFlag
      ensures !connected && !presence && pendingPings == map[]
      ensures state == Disconnected && LastState(posted) == Some(Disconnected)
    {
      RaiseStopFlag();
      var k := 0;
      while !(ui == OnStop(StopReturn) && uiOut == [])
        invariant Valid() && Stopped(ui)
        decreases Measure(View())
      {
        StopTurn(schedule(k));
        k := k + 1;
      }
      ReturnFromStop();
    }
  }
}
