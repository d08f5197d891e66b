/** Named runs of the GUI client from its first state: into a session, to the gap between the
    publish of a ping and its entry in the table, and to a lost session whose presence flag
    outlives its connected flag. */
module PahoRuns {
  import opened Wrappers
  import opened JsonTree
  import opened GuiMessages
  import opened PahoMachine
  import opened PahoOwnership

  /** An idle UI thread, a worker without a stop request, and nothing owed or recorded. */
  predicate Quiet(s: State) {
    && s.ui == Idle && s.uiOut == [] && s.wOut == [] && s.worker.Thread? && !s.stop
    && s.pending == map[] && s.timers == {} && s.ledger == Init().ledger
  }

  lemma RunStarts() returns (ls: seq<Label>, s: State)
    ensures Run(Init(), ls, s) && Quiet(s) && s.worker.pc == OnSession(LoopTest)
    ensures s.conn == Connecting && !s.connected && !s.presence
  {
    var step := UiStep(true, 0);
    ls, s := RunThen(Init(), [], Init(), CallConnect);
    ls, s := RunThen(Init(), ls, s, step);
    ls, s := RunThen(Init(), ls, s, step);
    ls, s := RunThen(Init(), ls, s, step);
    ls, s := RunThen(Init(), ls, s, step);
    ls, s := RunThen(Init(), ls, s, UiPost);
    ls, s := RunThen(Init(), ls, s, step);
  }

  lemma RunOpens() returns (ls: seq<Label>, s: State)
    ensures Run(Init(), ls, s) && Quiet(s) && s.worker.pc == OnSession(MarkConnected)
    ensures s.conn == Connecting && s.client && !s.connected && !s.presence
  {
    var step := WorkerStep(Returns);
    ls, s := RunStarts();
    ls, s := RunThen(Init(), ls, s, step);
    ls, s := RunThen(Init(), ls, s, step);
    ls, s := RunThen(Init(), ls, s, step);
    ls, s := RunThen(Init(), ls, s, step);
  }

  lemma RunConnects() returns (ls: seq<Label>, s: State)
    ensures Run(Init(), ls, s) && Quiet(s) && s.worker.pc == OnSession(Subscribe(SUBSCRIPTIONS))
    ensures s.client && s.connected && !s.presence
  {
    ls, s := RunOpens();
    ls, s := RunThen(Init(), ls, s, WorkerStep(Returns));
    ls, s := RunThen(Init(), ls, s, WorkerPost);
    ls, s := RunThen(Init(), ls, s, WorkerStep(Returns));
    ls, s := RunThen(Init(), ls, s, WorkerPost);
  }

  lemma {:induction false} RunSubscribes(left: nat, before: seq<Label>, m: State) returns (ls: seq<Label>, s: State)
    requires Run(Init(), before, m) && Quiet(m) && m.client && m.connected && !m.presence
    requires left > 0 && m.worker.pc == OnSession(Subscribe(left))
    ensures Run(Init(), ls, s) && Quiet(s) && s.client && s.connected && !s.presence
    ensures s.worker.pc == OnSession(StartConsuming)
  {
    ls, s := RunThen(Init(), before, m, WorkerStep(Returns));
    if left > 1 { ls, s := RunSubscribes(left - 1, ls, s); }
  }

  /** Into a session, waiting for the first message. */
  lemma RunConsumes() returns (ls: seq<Label>, s: State)
    ensures Run(Init(), ls, s) && Quiet(s) && s.worker.pc == OnSession(Consume)
    ensures s.client && s.connected && !s.presence
  {
    ls, s := RunConnects();
    ls, s := RunSubscribes(SUBSCRIPTIONS, ls, s);
    ls, s := RunThen(Init(), ls, s, WorkerStep(Returns));
    ls, s := RunThen(Init(), ls, s, WorkerStep(Returns));
  }

  /** The gap: a ping is published but not yet in the table, and the worker takes messages. */
  predicate InGap(s: State, id: PingId) {
    && s.ui == OnPing(PingInsert, id) && s.uiOut == [] && s.wOut == []
    && s.worker.Thread? && s.worker.pc == OnSession(Consume)
  }

  lemma RunIntoGap(id: PingId) returns (ls: seq<Label>, s: State)
    requires id != ""
    ensures Run(Init(), ls, s) && InGap(s, id) && s.timers == {} && s.pending == map[] && !s.stop
  {
    ls, s := RunConsumes();
    ls, s := RunThen(Init(), ls, s, CallPing(id));
    ls, s := RunThen(Init(), ls, s, UiStep(true, 0));
    ls, s := RunThen(Init(), ls, s, UiStep(true, 0));
  }

  /** The presence message a backend announces itself with. */
  function OnlineMessage(): Message { Message(Presence, Some(Obj(map["state" := Str("online")]))) }

  lemma RunShowsOnline() returns (ls: seq<Label>, s: State)
    ensures Run(Init(), ls, s) && Quiet(s) && s.worker.pc == OnSession(Consume)
    ensures s.connected && s.presence
  {
    assert PresenceOf(OnlineMessage().payload) == Some(true);
    ls, s := RunConsumes();
    ls, s := RunThen(Init(), ls, s, WorkerStep(Delivers(OnlineMessage(), 0)));
    ls, s := RunThen(Init(), ls, s, WorkerPost);
    ls, s := RunThen(Init(), ls, s, WorkerStep(Returns));
  }

  lemma RunLosesSession() returns (ls: seq<Label>, s: State)
    ensures Run(Init(), ls, s) && Quiet(s) && s.worker.pc == OnCleanup(DropConnected)
    ensures s.connected && s.presence
  {
    ls, s := RunShowsOnline();
    ls, s := RunThen(Init(), ls, s, WorkerStep(NullMessage));
    ls, s := RunThen(Init(), ls, s, WorkerStep(Returns));
    ls, s := RunThen(Init(), ls, s, WorkerStep(Returns));
  }

  /** A session that showed online and is then lost clears its connected flag first: the window
      has been told of the disconnection while the presence flag still stands. */
  lemma RunDisconnectedYetOnline() returns (ls: seq<Label>, s: State)
    ensures Run(Init(), ls, s) && !s.connected && s.presence && s.worker.Thread?
    ensures s.worker.pc == OnCleanup(DropPresence)
    ensures s.wOut == [] && s.posted != [] && s.posted[|s.posted| - 1] == ConnectedChanged(false)
  {
    ls, s := RunLosesSession();
    ls, s := RunThen(Init(), ls, s, WorkerStep(Returns));
    ls, s := RunThen(Init(), ls, s, WorkerPost);
  }

  /** Presence outlives the connection exactly at the two steps between the clearing of the
      two flags, with the worker still alive. */
  lemma WhenDisconnectedYetOnline(ls: seq<Label>, t: State)
    requires Run(Init(), ls, t) && t.presence
    ensures t.worker.Thread?
    ensures !t.connected <==> t.worker.pc == OnCleanup(DropPresence) || t.worker.pc == OnCleanup(CatchPresence)
  {
    InitOwn();
    AlwaysOwn(Init(), ls, t);
  }
}
