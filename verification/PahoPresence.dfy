/** The two-thread client inside the presence protocol. A system state pairs the client with the
    broker and backend around it; a client step that talks to the broker moves the protocol's
    GUI along, every other one leaves it where it is. The client turns out to refine the
    protocol's GUI, so agreement with the broker holds of the client's own presence flag and of
    the signals its window receives. */
module PahoPresence {
  import opened Wrappers
  import opened GuiMessages
  import opened PahoMachine
  import opened PahoOwnership
  import opened PahoSignals
  import P = PresenceProtocol

  datatype System = System(client: State, world: P.State)

  datatype Move = Client(step: Label) | Environment(act: P.Label)

  function Begin(willTs: int): System { System(Init(), P.Init(willTs)) }

  predicate WorkerReturns(s: State, l: Label, pc: WorkerPc) {
    l.WorkerStep? && s.worker.Thread? && s.worker.pc == pc && !l.outcome.Throws?
  }

  predicate TakesPresence(s: State, l: Label) {
    WorkerReturns(s, l, OnSession(Consume)) && l.outcome.Delivers? && l.outcome.msg.topic == Presence
  }

  const FIRST_SUBSCRIBE: WorkerPc := OnSession(Subscribe(SUBSCRIPTIONS))

  predicate GivesUp(pc: WorkerPc) { pc == OnCleanup(DropConnected) || pc == OnCleanup(CatchConnected) }

  predicate Clears(pc: WorkerPc) { pc == OnCleanup(DropPresence) || pc == OnCleanup(CatchPresence) }

  /** The protocol step a client step amounts to; `None` is a stutter. The first of the seven
      subscriptions is the one to presence. */
  function Shadow(s: System, l: Label): Option<P.Label> {
    if !l.WorkerStep? || !s.client.worker.Thread? then None
    else if WorkerReturns(s.client, l, OnSession(Connect)) then Some(P.GuiConnects)
    else if WorkerReturns(s.client, l, FIRST_SUBSCRIBE) then Some(P.GuiSubscribes)
    else if TakesPresence(s.client, l) then Some(P.GuiConsumes)
    else if GivesUp(s.client.worker.pc) && s.world.gui.Here? then Some(P.GuiGivesUp)
    else if Clears(s.client.worker.pc) && s.world.gui.Clearing? then Some(P.GuiClears)
    else None
  }

  /** What the network grants the client: a subscription is acknowledged only on a live link,
      and a presence message taken off the queue is the next one the broker has forwarded. */
  predicate Granted(s: System, l: Label) {
    && (WorkerReturns(s.client, l, FIRST_SUBSCRIBE) ==> s.world.gui.Here? && s.world.gui.live)
    && (TakesPresence(s.client, l) ==>
          && s.world.gui.Here? && s.world.gui.inbox != []
          && l.outcome.msg.payload == Some(s.world.gui.inbox[0]))
  }

  /** The protocol steps that are the client's own to take. */
  predicate IsClients(a: P.Label) {
    a.GuiConnects? || a.GuiSubscribes? || a.GuiConsumes? || a.GuiGivesUp? || a.GuiClears?
  }

  predicate CanMove(s: System, m: Move) {
    match m
    case Client(l) => Enabled(s.client, l) && Granted(s, l)
    case Environment(a) => !IsClients(a) && P.Enabled(s.world, a)
  }

  function Along(w: P.State, a: Option<P.Label>): P.State {
    if a.Some? && P.Enabled(w, a.value) then P.Apply(w, a.value) else w
  }

  function Moved(s: System, m: Move): System
    requires CanMove(s, m)
  {
    match m
    case Client(l) => System(Apply(s.client, l), Along(s.world, Shadow(s, l)))
    case Environment(a) => s.(world := P.Apply(s.world, a))
  }

  predicate Runs(s: System, ms: seq<Move>, t: System)
    decreases ms
  {
    if ms == [] then s == t
    else CanMove(s, ms[0]) && Runs(Moved(s, ms[0]), ms[1..], t)
  }

  // Where the worker is, and where the protocol's GUI is

  /** From the loop test up to the connect call. */
  predicate Opens(pc: SessionPc) { pc == LoopTest || pc == MakeClient || pc == MarkConnecting || pc == Connect }

  predicate Subscribed(pc: SessionPc) {
    || (pc.Subscribe? && pc.left < SUBSCRIPTIONS)
    || pc == StartConsuming || pc == ConsumeTest || pc == Consume
  }

  predicate GuiAt(pc: WorkerPc, connected: bool, gui: P.Gui) {
    match pc
    case OnSession(p) =>
      if Opens(p) then gui.Away? else gui.Here? && gui.subscribed == Subscribed(p)
    case OnCleanup(p) =>
      (match p
       case StopConsumer => gui.Here?
       case CloseSession => gui.Here?
       case DropConnected => gui.Here?
       case CatchConnected => if connected then gui.Here? else gui.Away?
       case DropPresence => gui.Clearing?
       case CatchPresence => !gui.Here?
       case AfterTry => gui.Away?)
    case OnWait(_) => gui.Away?
    case OnExit(_) => gui.Away?
  }

  predicate Linked(s: System) {
    && s.client.presence == s.world.presence
    && (if s.client.worker.NoThread? then s.world.gui.Away?
        else GuiAt(s.client.worker.pc, s.client.connected, s.world.gui))
  }

  /** The step is matched: its shadow, if any, is a step the protocol allows, and the two stay
      linked. */
  predicate Matched(s: System, l: Label, client: State) {
    var a := Shadow(s, l);
    (a.Some? ==> P.Enabled(s.world, a.value)) && Linked(System(client, Along(s.world, a)))
  }

  lemma OpenMatched(s: System, o: Outcome)
    requires Linked(s) && WorkerOwns(s.client) && s.client.worker.Thread?
    requires s.client.worker.pc.OnSession? && Opens(s.client.worker.pc.sessionPc)
    ensures Matched(s, WorkerStep(o), SessionNext(s.client, s.client.worker.pc.sessionPc, o))
  {}

  lemma SubscribeMatched(s: System, o: Outcome)
    requires Linked(s) && WorkerOwns(s.client) && s.client.worker.Thread? && Granted(s, WorkerStep(o))
    requires s.client.worker.pc.OnSession? && !Opens(s.client.worker.pc.sessionPc)
    requires s.client.worker.pc != OnSession(Consume)
    ensures Matched(s, WorkerStep(o), SessionNext(s.client, s.client.worker.pc.sessionPc, o))
  {}

  /** A message on the presence topic is the GUI's next; any other is a stutter. */
  lemma TakeMatched(s: System, o: Outcome)
    requires Linked(s) && WorkerOwns(s.client) && s.client.worker.Thread? && Granted(s, WorkerStep(o))
    requires TakesPresence(s.client, WorkerStep(o))
    ensures Matched(s, WorkerStep(o), ConsumeNext(s.client, o))
  {}

  lemma PassMatched(s: System, msg: Message, now: int)
    requires Linked(s) && s.client.worker.Thread? && s.client.worker.pc == OnSession(Consume)
    requires msg.topic != Presence
    ensures Matched(s, WorkerStep(Delivers(msg, now)), ConsumeNext(s.client, Delivers(msg, now)))
  {}

  lemma ConsumeMatched(s: System, o: Outcome)
    requires Linked(s) && WorkerOwns(s.client) && s.client.worker.Thread? && Granted(s, WorkerStep(o))
    requires s.client.worker.pc == OnSession(Consume)
    ensures Matched(s, WorkerStep(o), ConsumeNext(s.client, o))
  {
    if TakesPresence(s.client, WorkerStep(o)) {
      TakeMatched(s, o);
    } else if o.Delivers? {
      PassMatched(s, o.msg, o.now);
    }
  }

  lemma GiveUpMatched(s: System, o: Outcome)
    requires Linked(s) && WorkerOwns(s.client) && s.client.worker.Thread? && GivesUp(s.client.worker.pc)
    ensures Matched(s, WorkerStep(o), CleanupNext(s.client, s.client.worker.pc.cleanupPc))
  {}

  lemma DropMatched(s: System, o: Outcome)
    requires Linked(s) && s.client.worker.Thread? && s.client.worker.pc == OnCleanup(DropPresence)
    ensures Matched(s, WorkerStep(o), CleanupNext(s.client, DropPresence))
  {}

  lemma CatchMatched(s: System, o: Outcome)
    requires Linked(s) && P.GuiFits(s.world)
    requires s.client.worker.Thread? && s.client.worker.pc == OnCleanup(CatchPresence)
    ensures Matched(s, WorkerStep(o), CleanupNext(s.client, CatchPresence))
  {}

  lemma CleanupMatched(s: System, o: Outcome)
    requires Linked(s) && WorkerOwns(s.client) && s.client.worker.Thread?
    requires s.client.worker.pc.OnCleanup? && !GivesUp(s.client.worker.pc) && !Clears(s.client.worker.pc)
    ensures Matched(s, WorkerStep(o), CleanupNext(s.client, s.client.worker.pc.cleanupPc))
  {}

  lemma WaitMatched(s: System, o: Outcome)
    requires Linked(s) && s.client.worker.Thread? && s.client.worker.pc.OnWait?
    ensures Matched(s, WorkerStep(o), WaitNext(s.client, s.client.worker.pc.waitPc, o))
  {}

  lemma ExitMatched(s: System, o: Outcome)
    requires Linked(s) && WorkerOwns(s.client) && s.client.worker.Thread? && s.client.worker.pc.OnExit?
    ensures Matched(s, WorkerStep(o), ExitNext(s.client, s.client.worker.pc.exitPc))
  {}

  lemma WorkerMatched(s: System, o: Outcome)
    requires Linked(s) && P.GuiFits(s.world) && WorkerOwns(s.client)
    requires s.client.worker.Thread? && Granted(s, WorkerStep(o))
    ensures Matched(s, WorkerStep(o), WorkerNext(s.client, o))
  {
    match s.client.worker.pc
    case OnSession(pc) =>
      if pc == Consume { ConsumeMatched(s, o); }
      else if Opens(pc) { OpenMatched(s, o); }
      else { SubscribeMatched(s, o); }
    case OnCleanup(_) =>
      if GivesUp(s.client.worker.pc) { GiveUpMatched(s, o); }
      else if s.client.worker.pc == OnCleanup(DropPresence) { DropMatched(s, o); }
      else if s.client.worker.pc == OnCleanup(CatchPresence) { CatchMatched(s, o); }
      else { CleanupMatched(s, o); }
    case OnWait(_) => WaitMatched(s, o);
    case OnExit(_) => ExitMatched(s, o);
  }

  lemma StopMatched(s: System)
    requires Linked(s) && UiOwns(s.client) && s.client.ui.OnStop?
    requires s.client.ui == OnStop(StopJoin) ==> Joinable(s.client)
    ensures Linked(s.(client := StopNext(s.client, s.client.ui.stopPc)))
  {}

  lemma ConnectMatched(s: System)
    requires Linked(s) && UiOwns(s.client) && s.client.ui.OnConnect?
    ensures Linked(s.(client := ConnectNext(s.client, s.client.ui.connectPc)))
  {}

  lemma UiMatched(s: System, ok: bool, now: int)
    requires Linked(s) && UiOwns(s.client) && Enabled(s.client, UiStep(ok, now))
    ensures Linked(s.(client := UiNext(s.client, ok, now)))
  {
    match s.client.ui
    case OnStop(_) => StopMatched(s);
    case OnConnect(_) => ConnectMatched(s);
    case OnPing(pc, id) => assert PingFrame(s.client, PingNext(s.client, pc, id, ok, now));
    case OnTimeout(pc, id) => assert PingFrame(s.client, TimeoutNext(s.client, pc, id));
  }

  lemma ClientMatched(s: System, l: Label)
    requires Linked(s) && P.GuiFits(s.world) && Own(s.client) && CanMove(s, Client(l))
    ensures Matched(s, l, Apply(s.client, l))
  {
    match l
    case WorkerStep(o) => WorkerMatched(s, o);
    case UiStep(ok, now) => UiMatched(s, ok, now);
    case _ =>
  }

  lemma EnvironmentLinked(s: System, a: P.Label)
    requires Linked(s) && !IsClients(a) && P.Enabled(s.world, a)
    ensures Linked(s.(world := P.Apply(s.world, a)))
  {}

  /** What every system state keeps. */
  predicate Sound(s: System) { Own(s.client) && P.Fits(s.world) && Linked(s) }

  /** A run of the system is a run of the client and a run of the protocol: the two-thread
      client never does anything the protocol's GUI could not do. */
  lemma {:induction false} Refines(s: System, ms: seq<Move>, t: System)
    returns (ls: seq<Label>, acts: seq<P.Label>)
    requires Sound(s) && Runs(s, ms, t)
    ensures Sound(t) && Run(s.client, ls, t.client) && P.Run(s.world, acts, t.world)
    decreases ms
  {
    if ms == [] { return [], []; }
    var m := Moved(s, ms[0]);
    var act := match ms[0] case Client(l) => Shadow(s, l) case Environment(a) => Some(a);
    match ms[0] {
      case Client(l) =>
        ClientMatched(s, l);
        StepOwn(s.client, l);
      case Environment(a) => EnvironmentLinked(s, a);
    }
    if act.Some? {
      P.StepLog(s.world, act.value);
      P.StepBackend(s.world, act.value);
      P.StepGui(s.world, act.value);
    }
    ls, acts := Refines(m, ms[1..], t);
    if ms[0].Client? {
      assert ([ms[0].step] + ls)[1..] == ls;
      ls := [ms[0].step] + ls;
    }
    if act.Some? {
      assert ([act.value] + acts)[1..] == acts;
      acts := [act.value] + acts;
    }
  }

  /** The worker is in a session and past its presence subscription. */
  predicate InSession(s: State) { s.worker.Thread? && s.worker.pc.OnSession? && Subscribed(s.worker.pc.sessionPc) }

  /** Agreement for the client itself: subscribed, on a live link and with no presence message
      left to take, its flag is what the broker retains; and once its signals are posted, so is
      the last thing the window has been told. */
  lemma WindowShowsBroker(willTs: int, ms: seq<Move>, t: System)
    requires Runs(Begin(willTs), ms, t)
    requires InSession(t.client) && t.world.gui.Here? && t.world.gui.live && t.world.gui.inbox == []
    ensures t.client.presence == P.RetainedOnline(t.world)
    ensures t.client.wOut == [] ==>
              Read(Signals(t.client.posted)) == Some(Flags(true, P.RetainedOnline(t.world)))
  {
    var ls, acts := Refines(Begin(willTs), ms, t);
    P.PresenceAgreement(willTs, acts, t.world);
    SignalTrace(ls, t.client);
  }

  /** And end to end: it shows online once the backend's announcement has arrived, offline once
      the broker has noticed the backend's loss. */
  lemma WindowTracksBackend(willTs: int, ms: seq<Move>, t: System)
    requires Runs(Begin(willTs), ms, t)
    requires InSession(t.client) && t.world.gui.Here? && t.world.gui.live && t.world.gui.inbox == []
    ensures var w := t.world;
            && (w.backend.Up? && w.backend.announced && w.link && w.inFlight == [] ==> t.client.presence)
            && (w.session.None? ==> !t.client.presence)
  {
    var ls, acts := Refines(Begin(willTs), ms, t);
    P.GuiTracksBackend(willTs, acts, t.world);
  }
}
