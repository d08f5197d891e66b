/** The pace of reconnection: how long the worker waits between attempts, in every run. */
module PahoPacing {
  import opened Wrappers
  import opened Backoff
  import opened PahoMachine
  import opened PahoOwnership

  predicate Chosen(pc: WorkerPc) {
    pc.OnWait? && pc.waitPc != MarkDisconnected && pc.waitPc != DrawDelay
  }

  /** The backoff variable is the closed form in the number of waits since the last
      successful session, and every chosen wait lies in its band. */
  predicate PacedWorker(w: Worker)
    requires w.Thread?
  {
    && Schedule(w.delays)
    && (Chosen(w.pc) ==> |w.delays| > 0 && w.delayMs == w.delays[|w.delays| - 1]
                         && w.backoffMs == BackoffMs(|w.delays| - 1))
    && (!Chosen(w.pc) && !w.pc.OnExit? ==> w.backoffMs == BackoffMs(|w.delays|))
  }

  predicate Paced(s: State) { s.worker.Thread? ==> PacedWorker(s.worker) }

  lemma DrawPaced(w: Worker, r: int)
    requires w.Thread? && w.pc == OnWait(DrawDelay) && PacedWorker(w) && Draw(w.backoffMs, r)
    ensures var delay := Delay(w.backoffMs, r);
            PacedWorker(Thread(OnWait(WaitTest), w.backoffMs, delay, w.delays + [delay]))
  {
    DelayInBand(|w.delays|, r);
  }

  lemma DoublePaced(w: Worker)
    requires w.Thread? && w.pc == OnWait(DoubleBackoff) && PacedWorker(w)
    ensures PacedWorker(Thread(OnSession(LoopTest), Min(w.backoffMs * 2, CAP_MS), w.delayMs, w.delays))
  {
    BackoffDoubles(|w.delays| - 1);
  }

  /** Moving on with the same variables keeps the pace. */
  lemma MovePaced(w: Worker, pc: WorkerPc)
    requires w.Thread? && PacedWorker(w)
    requires pc.OnExit? || (!w.pc.OnExit? && Chosen(pc) == Chosen(w.pc))
    ensures PacedWorker(w.(pc := pc))
  {}

  lemma WaitPaced(s: State, o: Outcome)
    requires Paced(s) && Enabled(s, WorkerStep(o)) && s.worker.pc.OnWait?
    ensures Paced(WaitNext(s, s.worker.pc.waitPc, o))
  {
    if s.worker.pc.waitPc == DrawDelay {
      DrawPaced(s.worker, o.r);
    } else if s.worker.pc.waitPc == DoubleBackoff {
      DoublePaced(s.worker);
    } else {
      MovePaced(s.worker, WaitNext(s, s.worker.pc.waitPc, o).worker.pc);
    }
  }

  lemma SessionNotChosen(s: State, o: Outcome)
    requires s.worker.Thread? && s.worker.pc.OnSession?
    ensures !Chosen(SessionNext(s, s.worker.pc.sessionPc, o).worker.pc)
  {}

  lemma SessionPaced(s: State, o: Outcome)
    requires Paced(s) && s.worker.Thread? && s.worker.pc.OnSession?
    ensures Paced(SessionNext(s, s.worker.pc.sessionPc, o))
  {
    BackoffRange(0);
    SessionNotChosen(s, o);
    if s.worker.pc != OnSession(StartConsuming) {
      MovePaced(s.worker, SessionNext(s, s.worker.pc.sessionPc, o).worker.pc);
    }
  }

  lemma CleanupPaced(s: State)
    requires Paced(s) && s.worker.Thread? && s.worker.pc.OnCleanup?
    ensures Paced(CleanupNext(s, s.worker.pc.cleanupPc))
  {
    MovePaced(s.worker, CleanupNext(s, s.worker.pc.cleanupPc).worker.pc);
  }

  lemma ExitPaced(s: State)
    requires Paced(s) && s.worker.Thread? && s.worker.pc.OnExit?
    ensures Paced(ExitNext(s, s.worker.pc.exitPc))
  {
    MovePaced(s.worker, ExitNext(s, s.worker.pc.exitPc).worker.pc);
  }

  lemma WorkerPaced(s: State, o: Outcome)
    requires Paced(s) && Enabled(s, WorkerStep(o))
    ensures Paced(WorkerNext(s, o))
  {
    match s.worker.pc
    case OnSession(_) => SessionPaced(s, o);
    case OnWait(_) => WaitPaced(s, o);
    case OnCleanup(_) => CleanupPaced(s);
    case OnExit(_) => ExitPaced(s);
  }

  lemma NotifiedPaced(s: State)
    requires Paced(s) && s.ui.OnStop?
    ensures Paced(StopNext(s, s.ui.stopPc))
  {
    if s.worker.Thread? && s.worker.pc == OnWait(WaitBlocked) { MovePaced(s.worker, OnWait(WaitTest)); }
  }

  lemma StartPaced(s: State)
    requires Paced(s) && s.ui.OnConnect?
    ensures Paced(ConnectNext(s, s.ui.connectPc))
  {
    BackoffRange(0);
  }

  lemma UiPaced(s: State, ok: bool, now: int)
    requires Paced(s)
    ensures Paced(UiNext(s, ok, now))
  {
    match s.ui
    case OnStop(_) => NotifiedPaced(s);
    case OnConnect(_) => StartPaced(s);
    case _ =>
  }

  lemma StepPaced(s: State, l: Label)
    requires Paced(s) && Enabled(s, l)
    ensures Paced(Apply(s, l))
  {
    match l
    case WorkerStep(o) => WorkerPaced(s, o);
    case UiStep(ok, now) => UiPaced(s, ok, now);
    case _ =>
  }

  lemma {:induction false} AlwaysPaced(s: State, ls: seq<Label>, t: State)
    requires Own(s) && Paced(s) && Run(s, ls, t)
    ensures Own(t) && Paced(t)
    decreases ls
  {
    if ls != [] {
      StepOwn(s, ls[0]);
      StepPaced(s, ls[0]);
      AlwaysPaced(Apply(s, ls[0]), ls[1..], t);
    }
  }

  /** In every reachable state the waits since the last session obey the closed form, so any
      run of consecutive waits bounds the number of attempts in its window. */
  lemma ReconnectRate(ls: seq<Label>, t: State, i: nat, j: nat)
    requires Run(Init(), ls, t) && t.worker.Thread? && i <= j <= |t.worker.delays|
    ensures Schedule(t.worker.delays)
    ensures 8000 * (j - i) <= Sum(t.worker.delays[i..j]) + 20000
    ensures t.worker.pc == OnSession(Connect) ==> t.worker.backoffMs == BackoffMs(|t.worker.delays|)
  {
    AlwaysPaced(Init(), ls, t);
    AttemptsInWindow(t.worker.delays, i, j, Sum(t.worker.delays[i..j]));
  }

  // What the worker remembers: the waits since the last reset of the run

  predicate Starts(s: State, l: Label) { l.UiStep? && s.ui == OnConnect(ConnectStart) }

  predicate WorkerAt(s: State, l: Label, pc: WorkerPc) {
    l.WorkerStep? && s.worker.Thread? && s.worker.pc == pc
  }

  /** A new thread and a session that gets as far as consuming both reset the backoff. */
  predicate Resets(s: State, l: Label) {
    Starts(s, l) || (WorkerAt(s, l, OnSession(StartConsuming)) && !l.outcome.Throws?)
  }

  /** The waits chosen since the last reset, read off the run with the closed form alone. */
  function Recent(waits: seq<int>, s: State, ls: seq<Label>): seq<int>
    decreases ls
  {
    if ls == [] || !Enabled(s, ls[0]) then waits
    else Recent(Noted(waits, s, ls[0]), Apply(s, ls[0]), ls[1..])
  }

  function Noted(waits: seq<int>, s: State, l: Label): seq<int> {
    if Resets(s, l) then []
    else if WorkerAt(s, l, OnWait(DrawDelay)) && l.outcome.Draws?
    then waits + [Delay(BackoffMs(|waits|), l.outcome.r)]
    else waits
  }

  lemma WorkerNoted(s: State, o: Outcome)
    requires Paced(s) && Enabled(s, WorkerStep(o))
    ensures WorkerNext(s, o).worker.delays == Noted(s.worker.delays, s, WorkerStep(o))
  {
    match s.worker.pc
    case OnSession(pc) => if pc != StartConsuming { assert Keeps(s, SessionNext(s, pc, o)); }
    case OnWait(pc) =>
      if pc != DrawDelay && pc != DoubleBackoff { assert Keeps(s, WaitNext(s, pc, o)); }
    case OnCleanup(pc) => assert Keeps(s, CleanupNext(s, pc));
    case OnExit(pc) => assert Keeps(s, ExitNext(s, pc));
  }

  predicate Remembers(s: State, waits: seq<int>) { s.worker.Thread? ==> s.worker.delays == waits }

  /** Stop leaves the worker's memory alone until the join. */
  predicate SameMemory(w: Worker, v: Worker) { v.Thread? ==> w.Thread? && v.delays == w.delays }

  lemma HaltRemembers(s: State, pc: StopPc)
    requires Halting(pc)
    ensures SameMemory(s.worker, HaltNext(s, pc).worker)
  {}

  lemma StopRemembers(s: State)
    requires s.ui.OnStop?
    ensures SameMemory(s.worker, StopNext(s, s.ui.stopPc).worker)
  {
    if Halting(s.ui.stopPc) { HaltRemembers(s, s.ui.stopPc); }
  }

  lemma StepRemembers(s: State, l: Label, waits: seq<int>)
    requires Paced(s) && Remembers(s, waits) && Enabled(s, l)
    ensures Remembers(Apply(s, l), Noted(waits, s, l))
  {
    match l
    case WorkerStep(o) => WorkerNoted(s, o);
    case UiStep(ok, now) => if s.ui.OnStop? { StopRemembers(s); }
    case _ =>
  }

  lemma {:induction false} RunRemembers(s: State, ls: seq<Label>, t: State, waits: seq<int>)
    requires Own(s) && Paced(s) && Remembers(s, waits) && Run(s, ls, t)
    ensures Remembers(t, Recent(waits, s, ls))
    decreases ls
  {
    if ls != [] {
      StepOwn(s, ls[0]);
      StepPaced(s, ls[0]);
      StepRemembers(s, ls[0], waits);
      RunRemembers(Apply(s, ls[0]), ls[1..], t, Noted(waits, s, ls[0]));
    }
  }

  /** The waits a living worker remembers are those the run chose since its last reset. */
  lemma DelaysAreRecent(ls: seq<Label>, t: State)
    requires Run(Init(), ls, t) && t.worker.Thread?
    ensures t.worker.delays == Recent([], Init(), ls)
  {
    RunRemembers(Init(), ls, t, []);
  }

  // Across resets

  /** Milliseconds slept through to the end in this step. */
  function Sleeps(s: State, l: Label): int {
    if WorkerAt(s, l, OnWait(WaitBlocked)) && l.outcome.TimesOut? then s.worker.delayMs else 0
  }

  function Attempts(s: State, ls: seq<Label>): nat
    decreases ls
  {
    if ls == [] || !Enabled(s, ls[0]) then 0
    else One(WorkerAt(s, ls[0], OnSession(Connect))) + Attempts(Apply(s, ls[0]), ls[1..])
  }

  function Threads(s: State, ls: seq<Label>): nat
    decreases ls
  {
    if ls == [] || !Enabled(s, ls[0]) then 0
    else One(Starts(s, ls[0])) + Threads(Apply(s, ls[0]), ls[1..])
  }

  function Slept(s: State, ls: seq<Label>): int
    decreases ls
  {
    if ls == [] || !Enabled(s, ls[0]) then 0
    else Sleeps(s, ls[0]) + Slept(Apply(s, ls[0]), ls[1..])
  }

  /** The next attempt has been paid for, by the start of the thread or by a full wait. */
  predicate Paid(s: State) {
    && s.worker.Thread?
    && (match s.worker.pc
        case OnSession(pc) => pc == LoopTest || pc == MakeClient || pc == MarkConnecting || pc == Connect
        case OnWait(pc) => pc == DoubleBackoff || (pc == WaitDone && !s.stop)
        case _ => false)
  }

  lemma ChosenRange(s: State)
    requires Paced(s) && s.worker.Thread? && Chosen(s.worker.pc)
    ensures 800 <= s.worker.delayMs <= CAP_MS
  {
    var k := |s.worker.delays| - 1;
    assert InBand(k, s.worker.delayMs);
    WaitRange(k, s.worker.delayMs);
  }

  lemma SessionPays(s: State, o: Outcome)
    requires s.worker.Thread? && s.worker.pc.OnSession? && Paid(SessionNext(s, s.worker.pc.sessionPc, o))
    ensures Paid(s) && s.worker.pc != OnSession(Connect)
  {}

  lemma WaitPays(s: State, o: Outcome)
    requires s.worker.Thread? && s.worker.pc.OnWait? && Paid(WaitNext(s, s.worker.pc.waitPc, o))
    ensures Paid(s) || (s.worker.pc == OnWait(WaitBlocked) && o.TimesOut?)
  {}

  lemma CleanupPays(s: State)
    requires s.worker.Thread? && s.worker.pc.OnCleanup?
    ensures !Paid(CleanupNext(s, s.worker.pc.cleanupPc))
  {}

  lemma WorkerPays(s: State, o: Outcome)
    requires Paced(s) && Enabled(s, WorkerStep(o))
    ensures var l := WorkerStep(o);
            800 * (One(WorkerAt(s, l, OnSession(Connect))) + One(Paid(WorkerNext(s, o))))
            <= 800 * One(Paid(s)) + Sleeps(s, l)
  {
    if Chosen(s.worker.pc) { ChosenRange(s); }
    match s.worker.pc
    case OnSession(pc) => if Paid(SessionNext(s, pc, o)) { SessionPays(s, o); }
    case OnWait(pc) => if Paid(WaitNext(s, pc, o)) { WaitPays(s, o); }
    case OnCleanup(_) => CleanupPays(s);
    case OnExit(_) =>
  }

  lemma StopPays(s: State)
    requires UiOwns(s) && s.ui.OnStop? && Paid(StopNext(s, s.ui.stopPc))
    ensures Paid(s)
  {}

  lemma StepPays(s: State, l: Label)
    requires Own(s) && Paced(s) && Enabled(s, l)
    ensures 800 * (One(WorkerAt(s, l, OnSession(Connect))) + One(Paid(Apply(s, l))))
            <= 800 * (One(Starts(s, l)) + One(Paid(s))) + Sleeps(s, l)
  {
    match l
    case WorkerStep(o) => WorkerPays(s, o);
    case UiStep(ok, now) => if s.ui.OnStop? && Paid(Apply(s, l)) { StopPays(s); }
    case _ =>
  }

  lemma {:induction false} RunPays(s: State, ls: seq<Label>, t: State)
    requires Own(s) && Paced(s) && Run(s, ls, t)
    ensures 800 * (Attempts(s, ls) + One(Paid(t)))
            <= 800 * (Threads(s, ls) + One(Paid(s))) + Slept(s, ls)
    decreases ls
  {
    if ls != [] {
      StepPays(s, ls[0]);
      StepOwn(s, ls[0]);
      StepPaced(s, ls[0]);
      RunPays(Apply(s, ls[0]), ls[1..], t);
    }
  }

  /** Across all resets: in any stretch of any run, every connection attempt but one, and one
      more for each thread started, is paid for by a wait of at least 800 ms slept in full. */
  lemma AttemptsAreSpaced(before: seq<Label>, s: State, ls: seq<Label>, t: State)
    requires Run(Init(), before, s) && Run(s, ls, t)
    ensures 800 * (Attempts(s, ls) - Threads(s, ls) - 1) <= Slept(s, ls)
  {
    AlwaysPaced(Init(), before, s);
    RunPays(s, ls, t);
  }
}
