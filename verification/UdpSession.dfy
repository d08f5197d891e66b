/** The UDP session over the sensor library: every interface it creates is closed in order
    and destroyed exactly once, whatever the library answers. */
module UdpSession {
  import opened Wrappers
  import Decimal

  /** The library's status codes; the session treats time-out and not-ready as success. */
  datatype Status = NoError | NotReady | InvalidParameter | NullPointer | TimeOut | Error | Other(code: int)

  const INT64_MAX: int := 0x7FFF_FFFF_FFFF_FFFF

  /** Library calls, with the number of the interface they act on. */
  datatype Call =
    | Create(n: nat) | SetConnectedMode(n: nat) | Init(n: nat) | SetCallback(n: nat)
    | HandleOneLog(n: nat) | Close(n: nat) | Destroy(n: nat)

  /** What the library holds: nothing, an interface that may be in connected mode, a handle
      running on it that may have its receive callback, or an interface whose handle is closed. */
  datatype Held =
    | Nothing | Interface(n: nat, inMode: bool) | Running(n: nat, hooked: bool) | Closed(n: nat)

  datatype Library = Library(held: Held, made: nat)

  /** The order in which an interface is to be driven: `None` is a call that is out of order or
      on something that is not there. */
  function Accept(lib: Library, c: Call): Option<Library> {
    match c
    case Create(n) =>
      if lib.held == Nothing && n == lib.made then Some(Library(Interface(n, false), n + 1)) else None
    case SetConnectedMode(n) => if lib.held == Interface(n, false) then Some(lib.(held := Interface(n, true))) else None
    case Init(n) => if lib.held == Interface(n, true) then Some(lib.(held := Running(n, false))) else None
    case SetCallback(n) => if lib.held == Running(n, false) then Some(lib.(held := Running(n, true))) else None
    case HandleOneLog(n) => if lib.held == Running(n, true) then Some(lib) else None
    case Close(n) => if lib.held.Running? && lib.held.n == n then Some(lib.(held := Closed(n))) else None
    case Destroy(n) =>
      if (lib.held.Interface? || lib.held.Closed?) && lib.held.n == n then Some(lib.(held := Nothing)) else None
  }

  function Replay(calls: seq<Call>): Option<Library> {
    if calls == [] then Some(Library(Nothing, 0))
    else
      var lib := Replay(calls[..|calls| - 1]);
      if lib.None? then None else Accept(lib.value, calls[|calls| - 1])
  }

  lemma ReplaySnoc(calls: seq<Call>, c: Call)
    ensures Replay(calls + [c]) == if Replay(calls).None? then None else Accept(Replay(calls).value, c)
  {
    assert (calls + [c])[..|calls|] == calls;
  }

  function Count(calls: seq<Call>, c: Call): nat {
    if calls == [] then 0
    else Count(calls[..|calls| - 1], c) + if calls[|calls| - 1] == c then 1 else 0
  }

  predicate Holds(lib: Library, n: nat) { !lib.held.Nothing? && lib.held.n == n }

  /** In an accepted log every interface made was created once, and destroyed once unless it
      is the one still held; handles likewise. */
  lemma {:induction false} Accounts(calls: seq<Call>, n: nat)
    requires Replay(calls).Some?
    ensures var lib := Replay(calls).value;
            && Count(calls, Create(n)) == One(n < lib.made)
            && Count(calls, Destroy(n)) == One(n < lib.made && !Holds(lib, n))
            && Count(calls, Init(n)) == Count(calls, Close(n)) + One(lib.held.Running? && lib.held.n == n)
            && (Holds(lib, n) ==> n < lib.made)
  {
    if calls != [] {
      Accounts(calls[..|calls| - 1], n);
      var lib := Replay(calls[..|calls| - 1]).value;
      if !lib.held.Nothing? { Accounts(calls[..|calls| - 1], lib.held.n); }
    }
  }

  // The order of an opening

  predicate CreatedAt(calls: seq<Call>, n: nat, a: nat) { a < |calls| && calls[a] == Create(n) }

  predicate InModeAt(calls: seq<Call>, n: nat, a: nat, b: nat) {
    CreatedAt(calls, n, a) && a < b < |calls| && calls[b] == SetConnectedMode(n)
  }

  predicate StartedAt(calls: seq<Call>, n: nat, a: nat, b: nat, c: nat) {
    InModeAt(calls, n, a, b) && b < c < |calls| && calls[c] == Init(n)
  }

  predicate OpenedAt(calls: seq<Call>, n: nat, a: nat, b: nat, c: nat, d: nat) {
    StartedAt(calls, n, a, b, c) && c < d < |calls| && calls[d] == SetCallback(n)
  }

  /** Created, put in connected mode, started, and given its callback, in this order. */
  ghost predicate Opened(calls: seq<Call>, n: nat) { exists a, b, c, d :: OpenedAt(calls, n, a, b, c, d) }

  /** The log behind what the library holds. */
  ghost predicate Behind(calls: seq<Call>, held: Held) {
    match held
    case Nothing => true
    case Closed(_) => true
    case Interface(n, inMode) =>
      if inMode then exists a, b :: InModeAt(calls, n, a, b) else exists a :: CreatedAt(calls, n, a)
    case Running(n, hooked) =>
      if hooked then Opened(calls, n) else exists a, b, c :: StartedAt(calls, n, a, b, c)
  }

  lemma {:induction false} HeldIsBehind(calls: seq<Call>)
    requires Replay(calls).Some?
    ensures Behind(calls, Replay(calls).value.held)
  {
    if calls != [] {
      var k := |calls| - 1;
      HeldIsBehind(calls[..k]);
      NextIsBehind(calls, k, Replay(calls[..k]).value);
    }
  }

  lemma NextIsBehind(calls: seq<Call>, k: nat, lib: Library)
    requires k + 1 == |calls| && Behind(calls[..k], lib.held) && Accept(lib, calls[k]).Some?
    ensures Behind(calls, Accept(lib, calls[k]).value.held)
  {
    match calls[k]
    case Create(n) => assert CreatedAt(calls, n, k);
    case SetConnectedMode(n) =>
      var a :| CreatedAt(calls[..k], n, a);
      assert InModeAt(calls, n, a, k);
    case Init(n) =>
      var a, b :| InModeAt(calls[..k], n, a, b);
      assert StartedAt(calls, n, a, b, k);
    case SetCallback(n) =>
      var a, b, c :| StartedAt(calls[..k], n, a, b, c);
      assert OpenedAt(calls, n, a, b, c, k);
    case HandleOneLog(n) =>
      var a, b, c, d :| OpenedAt(calls[..k], n, a, b, c, d);
      assert OpenedAt(calls, n, a, b, c, d);
    case _ =>
  }

  /** None of the four calls is made twice on an interface. */
  lemma {:induction false} OnceEach(calls: seq<Call>, n: nat)
    requires Replay(calls).Some?
    ensures var lib := Replay(calls).value;
            && Count(calls, SetConnectedMode(n)) <= One(n < lib.made && lib.held != Interface(n, false))
            && Count(calls, Init(n)) <= One(n < lib.made && !(lib.held.Interface? && lib.held.n == n))
            && Count(calls, SetCallback(n))
               <= One(n < lib.made && !(lib.held.Interface? && lib.held.n == n) && lib.held != Running(n, false))
  {
    if calls != [] {
      var before := calls[..|calls| - 1];
      OnceEach(before, n);
      Accounts(before, n);
      var lib := Replay(before).value;
      if !lib.held.Nothing? { Accounts(before, lib.held.n); }
    }
  }

  lemma {:induction false} ReplayPrefix(calls: seq<Call>, i: nat)
    requires Replay(calls).Some? && i < |calls|
    ensures Replay(calls[..i]).Some? && Accept(Replay(calls[..i]).value, calls[i]).Some?
    decreases |calls|
  {
    if i < |calls| - 1 {
      ReplayPrefix(calls[..|calls| - 1], i);
      assert calls[..|calls| - 1][..i] == calls[..i];
    }
  }

  /** A frame reaches the session only through the callback of the running handle. */
  predicate Hooked(lib: Library) { lib.held.Running? && lib.held.hooked }

  /** One operation on the session with what the library answers: `addr` is the parsed IP, and
      `frame` the clock at which a poll finds a log frame, if it does. */
  datatype Op =
    | OpenOp(addr: nat, created: Status, inited: Status, now: int)
    | CloseOp
    | PollOp(status: Status, frame: Option<int>)

  /** The calls that close an open session. */
  function ClosingCalls(connected: bool, made: nat): seq<Call>
    requires connected ==> made > 0
  {
    if connected then [Call.Close(made - 1), Destroy(made - 1)] else []
  }

  /** The calls of an open that would create interface n; a failed init gives it back. */
  function OpeningCalls(n: nat, addr: nat, created: Status, inited: Status): seq<Call> {
    if addr == 0 || created != NoError then []
    else [Create(n), SetConnectedMode(n)] + if inited != NoError then [Destroy(n)] else [Init(n), SetCallback(n)]
  }

  /** The session's state, and what one operation makes of it. */
  datatype Session = Session(connected: bool, lastRxMs: int, lib: Library, calls: seq<Call>)

  function Do(s: Session, op: Op): (t: Session)
    requires s.connected ==> s.lib.made > 0
    ensures t.connected ==> t.lib.made > 0
  {
    match op
    case OpenOp(addr, created, inited, now) =>
      var bound := addr != 0 && created == NoError;
      var ok := bound && inited == NoError;
      Session(ok, if ok then now else 0,
              Library(if ok then Running(s.lib.made, true) else Nothing, s.lib.made + if bound then 1 else 0),
              s.calls + ClosingCalls(s.connected, s.lib.made) + OpeningCalls(s.lib.made, addr, created, inited))
    case CloseOp =>
      s.(connected := false, lib := Library(Nothing, s.lib.made),
         calls := s.calls + ClosingCalls(s.connected, s.lib.made))
    case PollOp(_, frame) =>
      if !s.connected then s
      else s.(lastRxMs := if frame.Some? && Hooked(s.lib) then frame.value else s.lastRxMs,
              calls := s.calls + [HandleOneLog(s.lib.made - 1)])
  }

  /** How long ago the last frame arrived; zero stands for never. */
  function AgeMs(lastRxMs: int, now: int): int { if lastRxMs == 0 then INT64_MAX else now - lastRxMs }

  function DoAll(s: Session, ops: seq<Op>): (t: Session)
    requires s.connected ==> s.lib.made > 0
    ensures t.connected ==> t.lib.made > 0
  {
    if ops == [] then s else Do(DoAll(s, ops[..|ops| - 1]), ops[|ops| - 1])
  }

  /** The library is in step with the connected flag. */
  predicate InStep(s: Session) {
    && (s.connected ==> s.lib.made > 0)
    && Replay(s.calls) == Some(s.lib)
    && s.lib.held == if s.connected then Running(s.lib.made - 1, true) else Nothing
  }

  class EkinoxUdpSession {
    var connected: bool
    var lastRxMs: int
    // The library as the session has driven it, and the calls made to it.
    var lib: Library
    var calls: seq<Call>

    ghost function View(): Session
      reads this
    {
      Session(connected, lastRxMs, lib, calls)
    }

    ghost predicate Valid()
      reads this
    {
      InStep(View())
    }

    constructor ()
      ensures Valid() && View() == FRESH
    {
      connected, lastRxMs, lib, calls := false, 0, Library(Nothing, 0), [];
    }

    method Record(c: Call)
      requires Replay(calls) == Some(lib) && Accept(lib, c).Some?
      modifies this`calls, this`lib
      ensures calls == old(calls) + [c] && Replay(calls) == Some(lib) == Accept(old(lib), c)
    {
      ReplaySnoc(calls, c);
      calls, lib := calls + [c], Accept(lib, c).value;
    }

    /** Two calls in a row. */
    method RecordTwo(a: Call, b: Call)
      requires Replay(calls) == Some(lib) && Accept(lib, a).Some? && Accept(Accept(lib, a).value, b).Some?
      modifies this`calls, this`lib
      ensures calls == old(calls) + [a, b]
      ensures Replay(calls) == Some(lib) == Accept(Accept(old(lib), a).value, b)
    {
      ReplayPair(calls, a, b, lib);
      calls, lib := calls + [a, b], Accept(Accept(lib, a).value, b).value;
    }

    method Close()
      requires Valid()
      modifies this`connected, this`calls, this`lib
      ensures Valid() && !connected
      ensures View() == Do(old(View()), CloseOp)
    {
      if !connected { return; }
      RecordTwo(Call.Close(lib.made - 1), Destroy(lib.made - 1));
      connected := false;
    }

    /** `now` is the steady clock in milliseconds; `err` is kept on success. */
    method Open(addr: nat, created: Status, inited: Status, now: int) returns (ok: bool, err: string)
      requires Valid()
      modifies this
      ensures Valid() && connected == ok
      ensures ok <==> addr != 0 && created == NoError && inited == NoError
      ensures View() == Do(old(View()), OpenOp(addr, created, inited, now))
      ensures !ok ==> LastRxAgeMs(now) == INT64_MAX
      ensures addr == 0 ==> err == "invalid ip"
      ensures addr != 0 && !ok ==>
                err == if created != NoError then "sbgInterfaceUdpCreate: " + StatusText(created)
                       else "sbgEComInit: " + StatusText(inited)
    {
      Close();
      lastRxMs := 0;
      err := "";
      if addr == 0 { return false, "invalid ip"; }
      if created != NoError { return false, "sbgInterfaceUdpCreate: " + StatusText(created); }
      Bind(inited);
      if inited != NoError { return false, "sbgEComInit: " + StatusText(inited); }
      lastRxMs := now;
      connected := true;
      ok := true;
    }

    /** Create the interface and start the handle on it; a failed start gives it back. */
    method Bind(inited: Status)
      requires Valid() && !connected
      modifies this`calls, this`lib
      ensures lib == Library(if inited == NoError then Running(old(lib.made), true) else Nothing, old(lib.made) + 1)
      ensures calls == old(calls) + OpeningCalls(old(lib.made), 1, NoError, inited)
      ensures Replay(calls) == Some(lib)
    {
      RecordTwo(Create(lib.made), SetConnectedMode(lib.made));
      if inited != NoError {
        Record(Destroy(lib.made - 1));
      } else {
        RecordTwo(Init(lib.made - 1), SetCallback(lib.made - 1));
      }
    }

    /** The library handles one log; a frame reaches the session through its callback. */
    method HandleLog(frame: Option<int>)
      requires Valid() && connected
      modifies this`lastRxMs, this`calls, this`lib
      ensures Valid() && lib == old(lib)
      ensures lastRxMs == if frame.Some? then frame.value else old(lastRxMs)
      ensures calls == old(calls) + [HandleOneLog(lib.made - 1)]
    {
      if frame.Some? && Hooked(lib) { lastRxMs := frame.value; }
      Record(HandleOneLog(lib.made - 1));
    }

    /** `frame` is the clock at which the call finds a log frame, if it does: the callback, where
        it is installed, sets the receive clock to it. */
    method Poll(status: Status, frame: Option<int>) returns (ok: bool, err: string)
      requires Valid()
      modifies this`lastRxMs, this`calls, this`lib
      ensures Valid() && lib == old(lib)
      ensures View() == Do(old(View()), PollOp(status, frame))
      ensures ok <==> connected && (status == NoError || status == NotReady || status == TimeOut)
      ensures lastRxMs == if connected && frame.Some? then frame.value else old(lastRxMs)
      ensures calls == old(calls) + if connected then [HandleOneLog(lib.made - 1)] else []
      ensures !ok ==> err == if connected then "sbgEComHandleOneLog: " + StatusText(status) else "not connected"
    {
      err := "";
      if !connected { return false, "not connected"; }
      HandleLog(frame);
      if status == NoError || status == NotReady { return true, err; }
      if status == TimeOut { return true, err; }
      return false, "sbgEComHandleOneLog: " + StatusText(status);
    }

    function LastRxAgeMs(now: int): int
      reads this
    {
      AgeMs(lastRxMs, now)
    }

    method PerformOne(op: Op)
      requires Valid()
      modifies this
      ensures Valid() && View() == Do(old(View()), op)
    {
      match op
      case OpenOp(addr, created, inited, now) => var ok, err := Open(addr, created, inited, now);
      case CloseOp => Close();
      case PollOp(status, frame) => var ok, err := Poll(status, frame);
    }

    /** Any sequence of operations, with any library answers. */
    method Perform(ops: seq<Op>)
      requires Valid()
      modifies this
      ensures Valid() && View() == DoAll(old(View()), ops)
    {
      assert ops[..0] == [];
      for i := 0 to |ops|
        invariant Valid() && View() == DoAll(old(View()), ops[..i])
      {
        assert ops[..i + 1][..i] == ops[..i];
        PerformOne(ops[i]);
      }
      assert ops[..|ops|] == ops;
    }
  }

  function StatusText(s: Status): string {
    match s
    case NoError => "SBG_NO_ERROR"
    case NotReady => "SBG_NOT_READY"
    case InvalidParameter => "SBG_INVALID_PARAMETER"
    case NullPointer => "SBG_NULL_POINTER"
    case TimeOut => "SBG_TIME_OUT"
    case Error => "SBG_ERROR"
    case Other(code) => Decimal.IntText(code)
  }

  const FRESH: Session := Session(false, 0, Library(Nothing, 0), [])

  lemma ReplayPair(calls: seq<Call>, a: Call, b: Call, lib: Library)
    requires Replay(calls) == Some(lib) && Accept(lib, a).Some?
    ensures Replay(calls + [a, b]) == Accept(Accept(lib, a).value, b)
  {
    ReplaySnoc(calls, a);
    ReplaySnoc(calls + [a], b);
    assert calls + [a, b] == calls + [a] + [b];
  }

  lemma ReplayClosing(s: Session)
    requires InStep(s)
    ensures Replay(s.calls + ClosingCalls(s.connected, s.lib.made)) == Some(Library(Nothing, s.lib.made))
  {
    if s.connected {
      var n := s.lib.made - 1;
      ReplayPair(s.calls, Call.Close(n), Destroy(n), Library(Running(n, true), s.lib.made));
    } else {
      assert s.calls + [] == s.calls;
    }
  }

  lemma ReplayOpening(calls: seq<Call>, n: nat, inited: Status)
    requires Replay(calls) == Some(Library(Nothing, n))
    ensures Replay(calls + OpeningCalls(n, 1, NoError, inited))
            == Some(Library(if inited == NoError then Running(n, true) else Nothing, n + 1))
  {
    ReplayPair(calls, Create(n), SetConnectedMode(n), Library(Nothing, n));
    var made := calls + [Create(n), SetConnectedMode(n)];
    if inited == NoError {
      ReplayPair(made, Init(n), SetCallback(n), Library(Interface(n, true), n + 1));
      assert calls + OpeningCalls(n, 1, NoError, inited) == made + [Init(n), SetCallback(n)];
    } else {
      ReplaySnoc(made, Destroy(n));
      assert calls + OpeningCalls(n, 1, NoError, inited) == made + [Destroy(n)];
    }
  }

  lemma DoInStep(s: Session, op: Op)
    requires InStep(s)
    ensures InStep(Do(s, op))
  {
    match op
    case OpenOp(addr, created, inited, now) =>
      ReplayClosing(s);
      var closed := s.calls + ClosingCalls(s.connected, s.lib.made);
      if addr != 0 && created == NoError {
        ReplayOpening(closed, s.lib.made, inited);
      } else {
        assert closed + [] == closed;
      }
    case CloseOp => ReplayClosing(s);
    case PollOp(_, _) => if s.connected { ReplaySnoc(s.calls, HandleOneLog(s.lib.made - 1)); }
  }

  lemma {:induction false} AlwaysInStep(ops: seq<Op>)
    ensures InStep(DoAll(FRESH, ops))
  {
    if ops != [] {
      AlwaysInStep(ops[..|ops| - 1]);
      DoInStep(DoAll(FRESH, ops[..|ops| - 1]), ops[|ops| - 1]);
    }
  }

  /** Balance: after any operations with any library answers, the library accepted every call,
      each interface ever created is destroyed once unless it is the connected one, and the
      live handle is the connected one's. */
  lemma ResourceBalance(ops: seq<Op>, n: nat)
    ensures var s := DoAll(FRESH, ops);
            var live := s.connected && n == s.lib.made - 1;
            && Replay(s.calls).Some?
            && Count(s.calls, Create(n)) == One(n < s.lib.made)
            && Count(s.calls, Create(n)) - Count(s.calls, Destroy(n)) == One(live)
            && Count(s.calls, Init(n)) - Count(s.calls, Close(n)) == One(live)
  {
    AlwaysInStep(ops);
    Accounts(DoAll(FRESH, ops).calls, n);
  }

  /** After the destructor's close nothing is left: created and destroyed exactly once each. */
  lemma LifetimeBalance(ops: seq<Op>, n: nat)
    ensures var s := DoAll(FRESH, ops + [CloseOp]);
            && !s.connected && Replay(s.calls) == Some(Library(Nothing, s.lib.made))
            && Count(s.calls, Create(n)) == Count(s.calls, Destroy(n)) == One(n < s.lib.made)
            && Count(s.calls, Init(n)) == Count(s.calls, Close(n))
  {
    assert (ops + [CloseOp])[..|ops|] == ops;
    AlwaysInStep(ops + [CloseOp]);
    ResourceBalance(ops + [CloseOp], n);
  }

  /** After a failed open the receive age is the maximum, at any clock; after a successful
      one it counts from that open. */
  lemma AgeAfterOpen(ops: seq<Op>, addr: nat, created: Status, inited: Status, openedAt: int, now: int)
    ensures var s := DoAll(FRESH, ops + [OpenOp(addr, created, inited, openedAt)]);
            && (s.connected <==> addr != 0 && created == NoError && inited == NoError)
            && (!s.connected ==> AgeMs(s.lastRxMs, now) == INT64_MAX)
            && (s.connected && openedAt != 0 ==> AgeMs(s.lastRxMs, now) == now - openedAt)
  {
    assert (ops + [OpenOp(addr, created, inited, openedAt)])[..|ops|] == ops;
  }

  /** Every poll of any run is made on an interface that was created, put in connected mode,
      started and given its callback before, in this order and once each. */
  lemma PollIsPrepared(ops: seq<Op>, i: nat, n: nat)
    requires var calls := DoAll(FRESH, ops).calls; i < |calls| && calls[i] == HandleOneLog(n)
    ensures var before := DoAll(FRESH, ops).calls[..i];
            && Opened(before, n)
            && Count(before, Create(n)) == 1 && Count(before, SetConnectedMode(n)) <= 1
            && Count(before, Init(n)) <= 1 && Count(before, SetCallback(n)) <= 1
  {
    var calls := DoAll(FRESH, ops).calls;
    AlwaysInStep(ops);
    ReplayPrefix(calls, i);
    HeldIsBehind(calls[..i]);
    OnceEach(calls[..i], n);
    Accounts(calls[..i], n);
  }

  lemma InStepIsPrepared(s: Session)
    requires InStep(s) && s.connected
    ensures Opened(s.calls, s.lib.made - 1) && Hooked(s.lib)
  {
    HeldIsBehind(s.calls);
  }

  /** And so is the interface of a connected session, polled or not. */
  lemma ConnectedIsPrepared(ops: seq<Op>)
    requires DoAll(FRESH, ops).connected
    ensures var s := DoAll(FRESH, ops);
            Opened(s.calls, s.lib.made - 1) && Hooked(s.lib)
  {
    AlwaysInStep(ops);
    InStepIsPrepared(DoAll(FRESH, ops));
  }

  /** A frame found by a poll of a connected session restarts the receive age. */
  lemma FrameRefreshesAge(ops: seq<Op>, status: Status, found: int, now: int)
    requires DoAll(FRESH, ops).connected && found != 0
    ensures AgeMs(DoAll(FRESH, ops + [PollOp(status, Some(found))]).lastRxMs, now) == now - found
  {
    assert (ops + [PollOp(status, Some(found))])[..|ops|] == ops;
    ConnectedIsPrepared(ops);
  }
}
