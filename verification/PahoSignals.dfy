/** The language of posted connectedChanged / presenceChanged signals:
    every posted trace is a prefix of (C+ (P+ P-)* (C- | P+ C- P-))*. */
module PahoSignals {
  import opened Wrappers
  import opened GuiMessages
  import opened PahoMachine
  import opened PahoOwnership

  datatype Flags = Flags(connected: bool, presence: bool)

  predicate IsSignal(e: Event) { e.ConnectedChanged? || e.PresenceChanged? }

  /** The connected/presence signals in a sequence of events, in order. */
  function Signals(es: seq<Event>): seq<Event> {
    if es == [] then []
    else
      var n := |es| - 1;
      Signals(es[..n]) + if IsSignal(es[n]) then [es[n]] else []
  }

  /** An automaton over signals; its states are the four flag settings. */
  function Read1(q: Flags, e: Event): Option<Flags> {
    match e
    case ConnectedChanged(on) =>
      if on && q == Flags(false, false) then Some(Flags(true, false))
      else if !on && q.connected then Some(Flags(false, q.presence))
      else None
    case PresenceChanged(online) =>
      if online && q == Flags(true, false) then Some(Flags(true, true))
      else if !online && q.presence then Some(Flags(q.connected, false))
      else None
    case _ => None
  }

  function Read(es: seq<Event>): Option<Flags> {
    if es == [] then Some(Flags(false, false))
    else
      var n := |es| - 1;
      var q := Read(es[..n]);
      if q.None? then None else Read1(q.value, es[n])
  }

  // The same language as a regular expression.

  /** One session: the presence blinks `blinks` times, and the connection then goes down
      either with presence already off or with presence still on. */
  datatype Session = Session(blinks: nat, lostOnline: bool)

  const CONNECTED_UP := ConnectedChanged(true)
  const CONNECTED_DOWN := ConnectedChanged(false)
  const PRESENCE_UP := PresenceChanged(true)
  const PRESENCE_DOWN := PresenceChanged(false)

  /** All sessions finished. */
  function Trace(ss: seq<Session>): seq<Event>
    decreases |ss|, 0, 0
  {
    if ss == [] then []
    else
      var before, s := ss[..|ss| - 1], ss[|ss| - 1];
      if s.lostOnline then LiveTrace(before, s.blinks) + [PRESENCE_UP] + [CONNECTED_DOWN] + [PRESENCE_DOWN]
      else LiveTrace(before, s.blinks) + [CONNECTED_DOWN]
  }

  /** The sessions `ss` finished, then one that is connected and has blinked n times. */
  function LiveTrace(ss: seq<Session>, n: nat): seq<Event>
    decreases |ss|, 1, n
  {
    if n == 0 then Trace(ss) + [CONNECTED_UP] else LiveTrace(ss, n - 1) + [PRESENCE_UP] + [PRESENCE_DOWN]
  }

  ghost predicate InLanguage(es: seq<Event>) {
    exists ss: seq<Session> :: es <= Trace(ss)
  }

  /** The trace behind flags `q`: finished sessions and the open one, if any. */
  function Behind(ss: seq<Session>, q: Flags, n: nat): seq<Event> {
    if !q.connected && !q.presence then Trace(ss)
    else if !q.presence then LiveTrace(ss, n)
    else if q.connected then LiveTrace(ss, n) + [PRESENCE_UP]
    else LiveTrace(ss, n) + [PRESENCE_UP] + [CONNECTED_DOWN]
  }

  lemma ReadSnoc(es: seq<Event>, e: Event)
    ensures Read(es + [e]) == if Read(es).None? then None else Read1(Read(es).value, e)
  {
    assert (es + [e])[..|es|] == es;
  }

  lemma TraceSnoc(ss: seq<Session>, s: Session)
    ensures Trace(ss + [s])
            == if s.lostOnline then LiveTrace(ss, s.blinks) + [PRESENCE_UP] + [CONNECTED_DOWN] + [PRESENCE_DOWN]
               else LiveTrace(ss, s.blinks) + [CONNECTED_DOWN]
  {
    assert (ss + [s])[..|ss|] == ss;
  }

  /** One more accepted signal extends the decomposition. */
  lemma Extend(ss: seq<Session>, q: Flags, n: nat, e: Event) returns (ss': seq<Session>, n': nat)
    requires Read1(q, e).Some?
    ensures Behind(ss, q, n) + [e] == Behind(ss', Read1(q, e).value, n')
  {
    ss', n' := ss, n;
    if e == CONNECTED_UP {
      n' := 0;
    } else if e == PRESENCE_DOWN && q.connected {
      n' := n + 1;
    } else if e == PRESENCE_DOWN || (e == CONNECTED_DOWN && !q.presence) {
      TraceSnoc(ss, Session(n, q.presence));
      ss' := ss + [Session(n, q.presence)];
    }
  }

  /** An accepted trace is some finished sessions and at most one unfinished one. */
  lemma {:induction false} Decompose(es: seq<Event>) returns (ss: seq<Session>, n: nat)
    requires Read(es).Some?
    ensures es == Behind(ss, Read(es).value, n)
  {
    if es == [] {
      ss, n := [], 0;
    } else {
      var k := |es| - 1;
      ss, n := Decompose(es[..k]);
      assert es == es[..k] + [es[k]];
      ss, n := Extend(ss, Read(es[..k]).value, n, es[k]);
    }
  }

  lemma {:induction false} ReadTrace(ss: seq<Session>)
    ensures Read(Trace(ss)) == Some(Flags(false, false))
    decreases |ss|, 0, 0
  {
    if ss != [] {
      var before, s := ss[..|ss| - 1], ss[|ss| - 1];
      ReadLive(before, s.blinks);
      var m := LiveTrace(before, s.blinks);
      ReadSnoc(m, CONNECTED_DOWN);
      ReadSnoc(m, PRESENCE_UP);
      ReadSnoc(m + [PRESENCE_UP], CONNECTED_DOWN);
      ReadSnoc(m + [PRESENCE_UP] + [CONNECTED_DOWN], PRESENCE_DOWN);
    }
  }

  lemma {:induction false} ReadLive(ss: seq<Session>, n: nat)
    ensures Read(LiveTrace(ss, n)) == Some(Flags(true, false))
    decreases |ss|, 1, n
  {
    if n == 0 {
      ReadTrace(ss);
      ReadSnoc(Trace(ss), CONNECTED_UP);
    } else {
      ReadLive(ss, n - 1);
      var m := LiveTrace(ss, n - 1);
      ReadSnoc(m, PRESENCE_UP);
      ReadSnoc(m + [PRESENCE_UP], PRESENCE_DOWN);
    }
  }

  lemma {:induction false} ReadPrefix(es: seq<Event>, n: nat)
    requires n <= |es| && Read(es).Some?
    ensures Read(es[..n]).Some?
  {
    if n == |es| {
      assert es[..n] == es;
    } else {
      ReadPrefix(es[..|es| - 1], n);
      assert es[..|es| - 1][..n] == es[..n];
    }
  }

  lemma BehindIsPrefix(ss: seq<Session>, q: Flags, n: nat)
    ensures exists ss': seq<Session> :: Behind(ss, q, n) <= Trace(ss')
  {
    if !q.connected && !q.presence {
      assert Behind(ss, q, n) <= Trace(ss);
    } else {
      TraceSnoc(ss, Session(n, q.presence));
      var whole := Trace(ss + [Session(n, q.presence)]);
      if q.presence {
        assert whole == (LiveTrace(ss, n) + [PRESENCE_UP]) + ([CONNECTED_DOWN] + [PRESENCE_DOWN]);
      }
      assert Behind(ss, q, n) <= whole;
    }
  }

  /** The automaton accepts exactly the prefixes of the regular expression. */
  lemma AcceptedIsLanguage(es: seq<Event>)
    ensures Read(es).Some? <==> InLanguage(es)
  {
    if Read(es).Some? {
      var ss, n := Decompose(es);
      BehindIsPrefix(ss, Read(es).value, n);
    }
    if InLanguage(es) {
      var ss: seq<Session> :| es <= Trace(ss);
      ReadTrace(ss);
      ReadPrefix(Trace(ss), |es|);
      assert Trace(ss)[..|es|] == es;
    }
  }

  // The machine stays inside the language.

  lemma {:induction false} SignalsConcat(a: seq<Event>, b: seq<Event>)
    ensures Signals(a + b) == Signals(a) + Signals(b)
  {
    if b == [] {
      assert a + b == a;
    } else {
      var n := |b| - 1;
      SignalsConcat(a, b[..n]);
      assert (a + b)[..|a + b| - 1] == a + b[..n];
    }
  }

  predicate Silent(es: seq<Event>) { forall e :: e in es ==> !IsSignal(e) }

  lemma {:induction false} SilentSignals(es: seq<Event>)
    requires Silent(es)
    ensures Signals(es) == []
  {
    if es != [] {
      assert forall e :: e in es[..|es| - 1] ==> e in es;
      SilentSignals(es[..|es| - 1]);
    }
  }

  /** What has been exchanged on the two flags is posted or in the worker's out-tray. The
      UI thread's out-tray never holds such a signal. */
  predicate SignalsAgree(s: State) {
    && Read(Signals(s.posted + s.wOut)) == Some(Flags(s.connected, s.presence))
    && Silent(s.uiOut)
  }

  /** A worker step either leaves the flags alone or takes one automaton step. */
  predicate OneSignal(s: State, t: State) {
    || (Silent(t.wOut) && t.connected == s.connected && t.presence == s.presence)
    || (|t.wOut| == 1 && IsSignal(t.wOut[0])
        && Read1(Flags(s.connected, s.presence), t.wOut[0]) == Some(Flags(t.connected, t.presence)))
  }

  lemma SessionSignals(s: State, o: Outcome)
    requires WorkerOwns(s) && s.wOut == [] && s.worker.Thread? && s.worker.pc.OnSession?
    requires s.worker.pc != OnSession(Consume)
    ensures OneSignal(s, SessionNext(s, s.worker.pc.sessionPc, o))
  {}

  lemma DispatchSignals(s: State, msg: Message, now: int)
    requires s.connected && s.wOut == [] && s.worker.Thread?
    ensures OneSignal(s, Dispatch(s, msg, now))
  {}

  lemma ConsumeSignals(s: State, o: Outcome)
    requires WorkerOwns(s) && s.wOut == [] && s.worker.Thread? && s.worker.pc == OnSession(Consume)
    ensures OneSignal(s, ConsumeNext(s, o))
  {
    if o.Delivers? { DispatchSignals(s, o.msg, o.now); }
  }

  lemma CleanupSignals(s: State)
    requires WorkerOwns(s) && s.wOut == [] && s.worker.Thread? && s.worker.pc.OnCleanup?
    ensures OneSignal(s, CleanupNext(s, s.worker.pc.cleanupPc))
  {}

  lemma WaitSignals(s: State, o: Outcome)
    requires WorkerOwns(s) && s.wOut == [] && s.worker.Thread? && s.worker.pc.OnWait?
    ensures OneSignal(s, WaitNext(s, s.worker.pc.waitPc, o))
  {}

  lemma ExitSignals(s: State)
    requires WorkerOwns(s) && s.wOut == [] && s.worker.Thread? && s.worker.pc.OnExit?
    ensures OneSignal(s, ExitNext(s, s.worker.pc.exitPc))
  {}

  lemma AnyWorkerSignals(s: State, o: Outcome)
    requires WorkerOwns(s) && s.wOut == [] && s.worker.Thread?
    ensures OneSignal(s, WorkerNext(s, o))
  {
    match s.worker.pc
    case OnSession(pc) => if pc == Consume { ConsumeSignals(s, o); } else { SessionSignals(s, o); }
    case OnCleanup(_) => CleanupSignals(s);
    case OnWait(_) => WaitSignals(s, o);
    case OnExit(_) => ExitSignals(s);
  }

  lemma OneSignalAgrees(s: State, t: State)
    requires SignalsAgree(s) && s.wOut == [] && WorkerFrame(s, t) && OneSignal(s, t)
    ensures SignalsAgree(t)
  {
    assert s.posted + s.wOut == s.posted;
    SignalsConcat(t.posted, t.wOut);
    if Silent(t.wOut) {
      SilentSignals(t.wOut);
      assert Signals(t.posted) + [] == Signals(t.posted);
    } else {
      assert t.wOut[..0] == [] && Signals(t.wOut) == [] + [t.wOut[0]] == [t.wOut[0]];
      ReadSnoc(Signals(t.posted), t.wOut[0]);
    }
  }

  /** The UI thread never changes either flag: it only writes false where false already is. */
  predicate UiSilent(s: State, t: State) {
    && t.connected == s.connected && t.presence == s.presence
    && t.posted == s.posted && t.wOut == s.wOut && Silent(t.uiOut)
  }

  lemma StopSilent(s: State)
    requires UiOwns(s) && s.uiOut == [] && s.ui.OnStop?
    ensures UiSilent(s, StopNext(s, s.ui.stopPc))
  {}

  lemma ConnectSilent(s: State)
    requires UiOwns(s) && s.uiOut == [] && s.ui.OnConnect?
    ensures UiSilent(s, ConnectNext(s, s.ui.connectPc))
  {}

  lemma PingSilent(s: State, ok: bool, now: int)
    requires s.uiOut == [] && s.ui.OnPing?
    ensures UiSilent(s, PingNext(s, s.ui.pingPc, s.ui.ping, ok, now))
  {}

  lemma AnyUiSilent(s: State, ok: bool, now: int)
    requires UiOwns(s) && s.uiOut == []
    ensures UiSilent(s, UiNext(s, ok, now))
  {
    match s.ui
    case OnStop(_) => StopSilent(s);
    case OnConnect(_) => ConnectSilent(s);
    case OnPing(_, _) => PingSilent(s, ok, now);
    case _ =>
  }

  lemma WorkerPostSignals(s: State)
    requires SignalsAgree(s) && s.wOut != []
    ensures SignalsAgree(Apply(s, WorkerPost))
  {
    assert s.posted + [s.wOut[0]] + s.wOut[1..] == s.posted + s.wOut;
  }

  /** Posting what is no such signal leaves the signals as they are. */
  lemma SilentPost(posted: seq<Event>, e: Event, rest: seq<Event>)
    requires !IsSignal(e)
    ensures Signals(posted + [e] + rest) == Signals(posted + rest)
  {
    SilentSignals([e]);
    SignalsConcat(posted, [e]);
    SignalsConcat(posted + [e], rest);
    SignalsConcat(posted, rest);
    assert Signals(posted) + [] == Signals(posted);
  }

  lemma UiPostSignals(s: State)
    requires SignalsAgree(s) && s.uiOut != []
    ensures SignalsAgree(Apply(s, UiPost))
  {
    assert s.uiOut[0] in s.uiOut;
    SilentPost(s.posted, s.uiOut[0], s.wOut);
    assert forall e :: e in s.uiOut[1..] ==> e in s.uiOut;
  }

  lemma StepSignals(s: State, l: Label)
    requires Own(s) && SignalsAgree(s) && Enabled(s, l)
    ensures SignalsAgree(Apply(s, l))
  {
    match l
    case UiPost => UiPostSignals(s);
    case WorkerPost => WorkerPostSignals(s);
    case UiStep(ok, now) => AnyUiSilent(s, ok, now);
    case WorkerStep(o) => AnyWorkerSignals(s, o); OneSignalAgrees(s, WorkerNext(s, o));
    case _ =>
  }

  lemma {:induction false} AlwaysSignals(s: State, ls: seq<Label>, t: State)
    requires Own(s) && SignalsAgree(s) && Run(s, ls, t)
    ensures Own(t) && SignalsAgree(t)
    decreases ls
  {
    if ls != [] {
      StepOwn(s, ls[0]);
      StepSignals(s, ls[0]);
      AlwaysSignals(Apply(s, ls[0]), ls[1..], t);
    }
  }

  lemma AgreeingTrace(t: State)
    requires SignalsAgree(t)
    ensures InLanguage(Signals(t.posted))
    ensures t.wOut == [] ==> Read(Signals(t.posted)) == Some(Flags(t.connected, t.presence))
  {
    SignalsConcat(t.posted, t.wOut);
    ReadPrefix(Signals(t.posted) + Signals(t.wOut), |Signals(t.posted)|);
    assert (Signals(t.posted) + Signals(t.wOut))[..|Signals(t.posted)|] == Signals(t.posted);
    AcceptedIsLanguage(Signals(t.posted));
    if t.wOut == [] { assert t.posted + t.wOut == t.posted; }
  }

  /** Over any number of connect/stop cycles and failures, what the window has been told is
      a prefix of the regular expression, and once nothing is in flight the last word of it
      is the two flags. */
  lemma SignalTrace(ls: seq<Label>, t: State)
    requires Run(Init(), ls, t)
    ensures InLanguage(Signals(t.posted))
    ensures t.wOut == [] ==> Read(Signals(t.posted)) == Some(Flags(t.connected, t.presence))
  {
    AlwaysSignals(Init(), ls, t);
    AgreeingTrace(t);
  }
}
