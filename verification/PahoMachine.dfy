/** The GUI client as a two-thread machine.

    The UI thread runs connect, stop, ping and ping-timeout; the worker thread runs the
    MQTT loop. One step is one access to shared state or one library call. A setter that
    exchanges an atomic and then queues a signal takes two steps: the exchange leaves the
    signal in the thread's out-tray (`uiOut`, `wOut`) and a later step posts it, so the
    other thread may run in between. */
module PahoMachine {
  import opened Wrappers
  import opened Backoff
  import opened GuiMessages

  datatype ConnState = Disconnected | Connecting | Connected | Stopping

  type PingId = string

  /** Signals queued to the UI event loop. */
  datatype Event =
    | ConnectedChanged(on: bool)
    | PresenceChanged(online: bool)
    | StateChanged(to: ConnState)
    | PingUpdated(id: PingId, rtt: int, timeout: bool)
    | AckReceived(kind: string, ackId: PingId, ok: bool)

  /** Program counters of the four UI operations, one constructor per operation. */
  datatype UiPc =
    | Idle
    | OnConnect(connectPc: ConnectPc)
    | OnStop(stopPc: StopPc)
    | OnPing(pingPc: PingPc, ping: PingId)
    | OnTimeout(timeoutPc: TimeoutPc, ping: PingId)

  datatype ConnectPc =
    ConnectFlag | ConnectConnected | ConnectPresence | ConnectState | ConnectStart

  datatype StopPc =
    | StopFlag | StopAnnounce | StopConsuming | StopDisconnect | StopNotify | StopJoin
    | StopReset | StopClear | StopConnected | StopPresence | StopState | StopReturn

  datatype PingPc = PingCheck | PingPublish | PingInsert | PingPending | PingArm

  datatype TimeoutPc = TimeoutErase | TimeoutReport(removed: bool)

  /** Program counters of the worker loop, one constructor per phase. */
  datatype WorkerPc =
    | OnSession(sessionPc: SessionPc)
    | OnCleanup(cleanupPc: CleanupPc)
    | OnWait(waitPc: WaitPc)
    | OnExit(exitPc: ExitPc)

  datatype SessionPc =
    | LoopTest | MakeClient | MarkConnecting | Connect | MarkConnected | MarkState
    | Subscribe(left: nat) | StartConsuming | ConsumeTest | Consume

  datatype CleanupPc =
    | StopConsumer | CloseSession | DropConnected | DropPresence
    | CatchConnected | CatchPresence | AfterTry

  datatype WaitPc =
    | MarkDisconnected | DrawDelay | WaitTest | WaitEnter | WaitBlocked | WaitDone | DoubleBackoff

  datatype ExitPc = ExitConnected | ExitPresence | ExitReset | ExitState | Finished

  /** `delays` lists the waits chosen since the last successful session. */
  datatype Worker =
    | NoThread
    | Thread(pc: WorkerPc, backoffMs: int, delayMs: int, delays: seq<int>)

  /** What became of the pings: history that no branch of the program reads. */
  datatype Ledger = Ledger(
    issued: set<PingId>, inserted: set<PingId>,
    ponged: set<PingId>, timedOut: set<PingId>, cleared: set<PingId>)

  datatype State = State(
    stop: bool, connected: bool, presence: bool, conn: ConnState, client: bool,
    ui: UiPc, uiOut: seq<Event>,
    worker: Worker, wOut: seq<Event>,
    pending: map<PingId, int>, timers: set<PingId>,
    posted: seq<Event>, ledger: Ledger)

  /** What a library call or the environment answers to a worker step. */
  datatype Outcome =
    | Returns | Throws | NullMessage | Delivers(msg: Message, now: int)
    | Draws(r: int) | TimesOut | Spurious

  datatype Label =
    | UiPost | WorkerPost
    | CallConnect | CallStop | CallPing(id: PingId) | TimerFires(id: PingId)
    | UiStep(ok: bool, now: int)
    | WorkerStep(outcome: Outcome)

  const SUBSCRIPTIONS: nat := 7

  function Init(): State {
    State(false, false, false, Disconnected, false, Idle, [], NoThread, [], map[], {}, [],
          Ledger({}, {}, {}, {}, {}))
  }

  /** The signal an atomic exchange owes: none when the value did not change. */
  function Owed<T(==)>(prev: T, next: T, e: Event): seq<Event> {
    if prev == next then [] else [e]
  }

  predicate Joinable(s: State) {
    s.worker.NoThread? || (s.worker.pc == OnExit(Finished) && s.wOut == [])
  }

  predicate OutcomeFits(w: Worker, o: Outcome)
    requires w.Thread?
  {
    if w.pc == OnSession(Consume) then o.Delivers? || o.NullMessage? || o.Throws?
    else if w.pc == OnSession(Connect) || w.pc == OnSession(StartConsuming)
            || (w.pc.OnSession? && w.pc.sessionPc.Subscribe?) then o.Returns? || o.Throws?
    else if w.pc == OnWait(DrawDelay) then o.Draws? && Draw(w.backoffMs, o.r)
    else if w.pc == OnWait(WaitBlocked) then o.TimesOut? || o.Spurious?
    else o.Returns?
  }

  predicate Enabled(s: State, l: Label) {
    match l
    case UiPost => s.uiOut != []
    case WorkerPost => s.wOut != []
    case CallConnect => s.ui == Idle && s.uiOut == []
    case CallStop => s.ui == Idle && s.uiOut == []
    case CallPing(id) => s.ui == Idle && s.uiOut == [] && id != "" && id !in s.ledger.issued
    case TimerFires(id) => s.ui == Idle && s.uiOut == [] && id in s.timers
    case UiStep(_, _) => s.ui != Idle && s.uiOut == [] && (s.ui == OnStop(StopJoin) ==> Joinable(s))
    case WorkerStep(o) =>
      s.worker.Thread? && s.worker.pc != OnExit(Finished) && s.wOut == [] && OutcomeFits(s.worker, o)
  }

  function Apply(s: State, l: Label): State
    requires Enabled(s, l)
  {
    match l
    case UiPost => s.(posted := s.posted + [s.uiOut[0]], uiOut := s.uiOut[1..])
    case WorkerPost => s.(posted := s.posted + [s.wOut[0]], wOut := s.wOut[1..])
    case CallConnect => if s.worker.Thread? then s else s.(ui := OnConnect(ConnectFlag))
    case CallStop => s.(ui := OnStop(StopFlag))
    case CallPing(id) =>
      s.(ui := OnPing(PingCheck, id), ledger := s.ledger.(issued := s.ledger.issued + {id}))
    case TimerFires(id) => s.(ui := OnTimeout(TimeoutErase, id), timers := s.timers - {id})
    case UiStep(ok, now) => UiNext(s, ok, now)
    case WorkerStep(o) => WorkerNext(s, o)
  }

  /** `ok` says whether a library call returned or threw; `now` is the wall clock. */
  function UiNext(s: State, ok: bool, now: int): State {
    match s.ui
    case Idle => s
    case OnConnect(pc) => ConnectNext(s, pc)
    case OnStop(pc) => StopNext(s, pc)
    case OnPing(pc, id) => PingNext(s, pc, id, ok, now)
    case OnTimeout(pc, id) => TimeoutNext(s, pc, id)
  }

  /** Connect and stop post nothing about pings and settle none. */
  predicate UiFrame(s: State, t: State) {
    && t.posted == s.posted && t.wOut == s.wOut && (s.uiOut == [] ==> Plain(t.uiOut))
    && t.ledger == s.ledger.(cleared := t.ledger.cleared) && s.ledger.cleared <= t.ledger.cleared
    && !t.ui.OnTimeout? && !t.ui.OnPing?
  }

  function ConnectNext(s: State, pc: ConnectPc): (t: State)
    requires s.ui.OnConnect?
    ensures UiFrame(s, t)
  {
    match pc
    case ConnectFlag => s.(stop := false, ui := OnConnect(ConnectConnected))
    case ConnectConnected => UiConnected(s, OnConnect(ConnectPresence))
    case ConnectPresence => UiPresence(s, OnConnect(ConnectState))
    case ConnectState => UiState(s, Connecting, OnConnect(ConnectStart))
    case ConnectStart => s.(worker := Thread(OnSession(LoopTest), FIRST_MS, 0, []), ui := Idle)
  }

  function StopNext(s: State, pc: StopPc): State {
    if Halting(pc) then HaltNext(s, pc) else if Releasing(pc) then ReleaseNext(s, pc) else WithdrawNext(s, pc)
  }

  /** Stop, up to and including the join. */
  predicate Halting(pc: StopPc) {
    pc == StopFlag || pc == StopAnnounce || pc == StopConsuming || pc == StopDisconnect
    || pc == StopNotify || pc == StopJoin
  }

  /** With the worker gone: drop the client, empty the ping table, and at the end return. */
  predicate Releasing(pc: StopPc) { pc == StopReset || pc == StopClear || pc == StopReturn }

  function HaltNext(s: State, pc: StopPc): (t: State)
    requires Halting(pc)
    ensures UiFrame(s, t)
    ensures t.timers == s.timers && t.pending == s.pending && t.ledger == s.ledger
  {
    match pc
    case StopFlag => s.(stop := true, ui := OnStop(StopAnnounce))
    case StopAnnounce => UiState(s, Stopping, OnStop(StopConsuming))
    case StopConsuming => s.(ui := OnStop(StopDisconnect))
    case StopDisconnect => s.(ui := OnStop(StopNotify))
    case StopNotify => s.(worker := Notified(s.worker), ui := OnStop(StopJoin))
    case StopJoin => s.(worker := NoThread, ui := OnStop(StopReset))
  }

  function ReleaseNext(s: State, pc: StopPc): (t: State)
    requires Releasing(pc)
    ensures UiFrame(s, t) && t.timers == s.timers
    ensures pc == StopClear || (t.pending == s.pending && t.ledger == s.ledger)
  {
    match pc
    case StopReset => s.(client := false, ui := OnStop(StopClear))
    case StopClear =>
      s.(pending := map[], ui := OnStop(StopConnected),
         ledger := s.ledger.(cleared := s.ledger.cleared + s.pending.Keys))
    case StopReturn => s.(ui := Idle)
  }

  function WithdrawNext(s: State, pc: StopPc): (t: State)
    requires !Halting(pc) && !Releasing(pc)
    ensures UiFrame(s, t)
    ensures t.timers == s.timers && t.pending == s.pending && t.ledger == s.ledger
  {
    match pc
    case StopConnected => UiConnected(s, OnStop(StopPresence))
    case StopPresence => UiPresence(s, OnStop(StopState))
    case StopState => UiState(s, Disconnected, OnStop(StopReturn))
  }

  /** Pings and their timers leave the connection alone. */
  predicate PingFrame(s: State, t: State) {
    && t.worker == s.worker && t.wOut == s.wOut && t.posted == s.posted
    && t.stop == s.stop && t.connected == s.connected && t.presence == s.presence
    && t.client == s.client && t.conn == s.conn
  }

  function PingNext(s: State, pc: PingPc, id: PingId, ok: bool, now: int): (t: State)
    ensures PingFrame(s, t)
  {
    match pc
    case PingCheck => s.(ui := if s.client && s.connected then OnPing(PingPublish, id) else Idle)
    case PingPublish => s.(ui := if ok then OnPing(PingInsert, id) else Idle)
    case PingInsert =>
      s.(pending := s.pending[id := now], ui := OnPing(PingPending, id),
         ledger := s.ledger.(inserted := s.ledger.inserted + {id}))
    case PingPending => s.(uiOut := [PingUpdated(id, -1, false)], ui := OnPing(PingArm, id))
    case PingArm => s.(timers := s.timers + {id}, ui := Idle)
  }

  function TimeoutNext(s: State, pc: TimeoutPc, id: PingId): (t: State)
    ensures PingFrame(s, t)
  {
    match pc
    case TimeoutErase =>
      if id in s.pending then
        s.(pending := s.pending - {id}, ui := OnTimeout(TimeoutReport(true), id),
           ledger := s.ledger.(timedOut := s.ledger.timedOut + {id}))
      else s.(ui := OnTimeout(TimeoutReport(false), id))
    case TimeoutReport(removed) =>
      s.(uiOut := if removed && !s.stop then [PingUpdated(id, -1, true)] else [], ui := Idle)
  }

  function UiConnected(s: State, next: UiPc): State {
    s.(connected := false, uiOut := Owed(s.connected, false, ConnectedChanged(false)), ui := next)
  }

  function UiPresence(s: State, next: UiPc): State {
    s.(presence := false, uiOut := Owed(s.presence, false, PresenceChanged(false)), ui := next)
  }

  function UiState(s: State, to: ConnState, next: UiPc): State {
    s.(conn := to, uiOut := Owed(s.conn, to, StateChanged(to)), ui := next)
  }

  /** `notify_all` wakes a blocked worker; one that has tested the predicate but not yet
      blocked misses it. */
  function Notified(w: Worker): Worker {
    if w.Thread? && w.pc == OnWait(WaitBlocked) then w.(pc := OnWait(WaitTest)) else w
  }

  /** No worker step touches what belongs to the UI thread. */
  predicate WorkerFrame(s: State, t: State) {
    && t.worker.Thread?
    && t.ui == s.ui && t.uiOut == s.uiOut && t.stop == s.stop
    && t.posted == s.posted && t.timers == s.timers
  }

  /** At most one signal is owed, and it tells of no ping and no acknowledgement. */
  predicate Plain(out: seq<Event>) {
    out == [] || (|out| == 1 && !out[0].PingUpdated? && !out[0].AckReceived?)
  }

  /** The worker's own variables stay as they are. */
  predicate Keeps(s: State, t: State)
    requires s.worker.Thread?
  {
    t.worker.Thread? && t.worker == s.worker.(pc := t.worker.pc)
  }

  /** Only `Consume` touches the ping table. */
  predicate TableFrame(s: State, t: State) {
    t.pending == s.pending && t.ledger == s.ledger && (s.wOut == [] ==> Plain(t.wOut))
  }

  function WorkerNext(s: State, o: Outcome): (t: State)
    requires s.worker.Thread?
    ensures WorkerFrame(s, t)
    ensures s.worker.pc == OnSession(Consume) || TableFrame(s, t)
  {
    match s.worker.pc
    case OnSession(pc) => SessionNext(s, pc, o)
    case OnCleanup(pc) => CleanupNext(s, pc)
    case OnWait(pc) => WaitNext(s, pc, o)
    case OnExit(pc) => ExitNext(s, pc)
  }

  function SessionNext(s: State, pc: SessionPc, o: Outcome): (t: State)
    requires s.worker.Thread?
    ensures WorkerFrame(s, t)
    ensures pc == Consume || TableFrame(s, t)
    ensures pc == StartConsuming || Keeps(s, t)
  {
    match pc
    case LoopTest => At(s, if s.stop then OnExit(ExitConnected) else OnSession(MakeClient))
    case MakeClient => At(s.(client := true), OnSession(MarkConnecting))
    case MarkConnecting => WorkerState(s, Connecting, OnSession(Connect))
    case Connect => At(s, if o.Throws? then OnCleanup(CatchConnected) else OnSession(MarkConnected))
    case MarkConnected => WorkerConnected(s, true, OnSession(MarkState))
    case MarkState => WorkerState(s, Connected, OnSession(Subscribe(SUBSCRIPTIONS)))
    case Subscribe(left) =>
      At(s, if o.Throws? then OnCleanup(CatchConnected)
            else if left > 1 then OnSession(Subscribe(left - 1)) else OnSession(StartConsuming))
    case StartConsuming =>
      if o.Throws? then At(s, OnCleanup(CatchConnected))
      else s.(worker := Thread(OnSession(ConsumeTest), FIRST_MS, s.worker.delayMs, []))
    case ConsumeTest => At(s, if s.stop then OnCleanup(StopConsumer) else OnSession(Consume))
    case Consume => ConsumeNext(s, o)
  }

  function ConsumeNext(s: State, o: Outcome): (t: State)
    requires s.worker.Thread?
    ensures WorkerFrame(s, t) && Keeps(s, t)
    ensures s.wOut == [] ==> |t.wOut| <= 2
  {
    if o.Throws? then At(s, OnCleanup(CatchConnected))
    else if o.Delivers? then At(Dispatch(s, o.msg, o.now), OnSession(ConsumeTest))
    else At(s, OnCleanup(StopConsumer))
  }

  function CleanupNext(s: State, pc: CleanupPc): (t: State)
    requires s.worker.Thread?
    ensures WorkerFrame(s, t) && TableFrame(s, t) && Keeps(s, t)
  {
    match pc
    case StopConsumer => At(s, OnCleanup(CloseSession))
    case CloseSession => At(s, OnCleanup(DropConnected))
    case DropConnected => WorkerConnected(s, false, OnCleanup(DropPresence))
    case DropPresence => WorkerPresence(s, false, OnCleanup(AfterTry))
    case CatchConnected => WorkerConnected(s, false, OnCleanup(CatchPresence))
    case CatchPresence => WorkerPresence(s, false, OnCleanup(AfterTry))
    case AfterTry => At(s, if s.stop then OnExit(ExitConnected) else OnWait(MarkDisconnected))
  }

  function WaitNext(s: State, pc: WaitPc, o: Outcome): (t: State)
    requires s.worker.Thread?
    ensures WorkerFrame(s, t) && TableFrame(s, t)
    ensures pc == DrawDelay || pc == DoubleBackoff || Keeps(s, t)
  {
    match pc
    case MarkDisconnected => WorkerState(s, Disconnected, OnWait(DrawDelay))
    case DrawDelay =>
      var delay := Delay(s.worker.backoffMs, if o.Draws? then o.r else 0);
      s.(worker := Thread(OnWait(WaitTest), s.worker.backoffMs, delay, s.worker.delays + [delay]))
    case WaitTest => At(s, if s.stop then OnWait(WaitDone) else OnWait(WaitEnter))
    case WaitEnter => At(s, OnWait(WaitBlocked))
    case WaitBlocked => At(s, if o.TimesOut? then OnWait(WaitDone) else OnWait(WaitTest))
    case WaitDone => At(s, if s.stop then OnExit(ExitConnected) else OnWait(DoubleBackoff))
    case DoubleBackoff =>
      s.(worker := Thread(OnSession(LoopTest), Min(s.worker.backoffMs * 2, CAP_MS),
                          s.worker.delayMs, s.worker.delays))
  }

  function ExitNext(s: State, pc: ExitPc): (t: State)
    requires s.worker.Thread?
    ensures WorkerFrame(s, t) && TableFrame(s, t) && Keeps(s, t)
  {
    match pc
    case ExitConnected => WorkerConnected(s, false, OnExit(ExitPresence))
    case ExitPresence => WorkerPresence(s, false, OnExit(ExitReset))
    case ExitReset => At(s.(client := false), OnExit(ExitState))
    case ExitState => WorkerState(s, if s.stop then Stopping else Disconnected, OnExit(Finished))
    case Finished => s
  }

  function At(s: State, pc: WorkerPc): (t: State)
    requires s.worker.Thread?
    ensures WorkerFrame(s, t) && TableFrame(s, t) && Keeps(s, t)
  {
    s.(worker := s.worker.(pc := pc))
  }

  function WorkerConnected(s: State, v: bool, pc: WorkerPc): (t: State)
    requires s.worker.Thread?
    ensures WorkerFrame(s, t) && TableFrame(s, t) && Keeps(s, t)
  {
    At(s.(connected := v, wOut := Owed(s.connected, v, ConnectedChanged(v))), pc)
  }

  function WorkerPresence(s: State, v: bool, pc: WorkerPc): (t: State)
    requires s.worker.Thread?
    ensures WorkerFrame(s, t) && TableFrame(s, t) && Keeps(s, t)
  {
    At(s.(presence := v, wOut := Owed(s.presence, v, PresenceChanged(v))), pc)
  }

  function WorkerState(s: State, to: ConnState, pc: WorkerPc): (t: State)
    requires s.worker.Thread?
    ensures WorkerFrame(s, t) && TableFrame(s, t) && Keeps(s, t)
  {
    At(s.(conn := to, wOut := Owed(s.conn, to, StateChanged(to))), pc)
  }

  /** The body of the inner loop: presence sets the flag, an ack settles a pending ping. */
  function Dispatch(s: State, msg: Message, now: int): (t: State)
    requires s.worker.Thread?
    ensures WorkerFrame(s, t) && t.worker == s.worker
    ensures s.wOut == [] ==> |t.wOut| <= 2
  {
    if msg.topic == Presence && PresenceOf(msg.payload).Some? then
      var v := PresenceOf(msg.payload).value;
      s.(presence := v, wOut := Owed(s.presence, v, PresenceChanged(v)))
    else if msg.topic == Ack && AckOf(msg.payload).Some? then
      SettleAck(s, AckOf(msg.payload).value, now)
    else s
  }

  function SettleAck(s: State, ack: AckBody, now: int): (t: State)
    requires s.worker.Thread?
    ensures WorkerFrame(s, t) && t.worker == s.worker
    ensures s.wOut == [] ==> |t.wOut| <= 2
  {
    if ack.id in s.pending then
      s.(pending := s.pending - {ack.id},
         ledger := s.ledger.(ponged := s.ledger.ponged + {ack.id}),
         wOut := [PingUpdated(ack.id, Max(0, now - s.pending[ack.id]), false),
                  AckReceived(if ack.kind == "" then "ping" else ack.kind, ack.id, ack.ok)])
    else s.(wOut := [AckReceived(ack.kind, ack.id, ack.ok)])
  }

  /** `ls` is a schedule: labels of steps that are all enabled in turn, from s to t. */
  predicate Run(s: State, ls: seq<Label>, t: State)
    decreases ls
  {
    if ls == [] then s == t
    else Enabled(s, ls[0]) && Run(Apply(s, ls[0]), ls[1..], t)
  }

  // Building runs

  /** One more step at the end of a run. */
  lemma RunThen(o: State, ls: seq<Label>, s: State, l: Label) returns (more: seq<Label>, t: State)
    requires Run(o, ls, s) && Enabled(s, l)
    ensures more == ls + [l] && t == Apply(s, l) && Run(o, more, t)
  {
    more, t := ls + [l], Apply(s, l);
    RunAppend(o, ls, s, [l], t);
  }

  lemma {:induction false} RunAppend(s: State, a: seq<Label>, m: State, b: seq<Label>, t: State)
    requires Run(s, a, m) && Run(m, b, t)
    ensures Run(s, a + b, t)
    decreases a
  {
    if a == [] {
      assert a + b == b;
    } else {
      RunAppend(Apply(s, a[0]), a[1..], m, b, t);
      assert (a + b)[1..] == a[1..] + b;
    }
  }
}
