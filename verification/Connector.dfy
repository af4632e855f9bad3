/** The TCP connector (include/net_ip/detail/tcp_connector.hpp): resolve, connect, wait and connect again, then one
    handler. As in the acceptor, a step runs up to the next callback and `frames` holds what follows its return. */
module Connector {
  import opened Bytes
  import opened NetEntity
  import Delivery

  datatype Frame =
    | AfterResolveError
    | AfterConnectError
    | AfterTimerError
    | NotifyClose(h: nat)  // notify_me after its error callback
    | NotifyStop           // and after its state change callback

  /** Outstanding asynchronous operations. */
  datatype Ops = Ops(resolving: nat, connecting: nat, waiting: nat)

  /** The handlers made so far, numbered from 0. */
  datatype Handlers = Handlers(
    next: nat,
    on: set<nat>,     // is_io_started
    shut: set<nat>,   // socket closed
    chain: set<nat>   // read chain running
  )

  /** History of the operations. */
  datatype Links = Links(
    starts: nat,
    attempts: nat,  // async_connect calls
    failures: nat,  // connect completions with an error
    dropped: nat    // chains of operations that ended without a connection
  )

  /** History of the handlers and of the application's calls. */
  datatype Calls = Calls(
    stops: nat,          // stop() of the application that returned true
    startIos: nat,       // start_io that got past set_io_started
    startFailures: nat,  // of which found no remote endpoint
    stopIos: nat,        // stop_io that returned true
    chainEnds: nat,
    badAsserts: nat      // failures of the assert in notify_me
  )

  datatype Conn = Conn(
    started: bool,
    shuttingDown: bool,
    resolved: bool,        // m_endpoints is not empty
    current: Option<nat>,  // m_io_handler
    ops: Ops,
    io: Handlers,
    frames: seq<Frame>,    // top first
    links: Links,
    calls: Calls,
    trace: seq<Callback>
  )

  datatype ConnEvent =
    | Start
    | Stop
    | ResolveDone(ok: bool, found: bool)
    | ConnectDone(ok: bool)
    | TimerDone(ok: bool)
    | HandlerStartIo(h: nat, endpointError: bool)
    | HandlerStopIo(h: nat)
    | ChainEnds(h: nat)
    | Return(timerThrows: bool)

  predicate IsCompletion(ev: ConnEvent) {
    ev.ResolveDone? || ev.ConnectDone? || ev.TimerDone?
  }

  /** A new connector, made from endpoints or from a host and port still to be resolved. */
  function FreshConn(resolved: bool): Conn {
    Conn(false, false, resolved, None, Ops(0, 0, 0), Handlers(0, {}, {}, {}), [], Links(0, 0, 0, 0), Calls(0, 0, 0, 0, 0, 0), [])
  }

  function Emit(s: Conn, c: Callback): Conn {
    s.(trace := s.trace + [c])
  }

  function Push(s: Conn, f: Frame): Conn {
    s.(frames := [f] + s.frames)
  }

  function Fail(s: Conn, f: Frame): Conn {
    Push(Emit(s, Failed(None, SystemError)), f)
  }

  /** start_connect. */
  function Connect(s: Conn): Conn {
    s.(ops := s.ops.(connecting := s.ops.connecting + 1), links := s.links.(attempts := s.links.attempts + 1))
  }

  function Drop(s: Conn): Conn {
    s.(links := s.links.(dropped := s.links.dropped + 1))
  }

  function CloseHandler(io: Handlers, h: nat): Handlers {
    if h in io.on then io.(on := io.on - {h}, shut := io.shut + {h}) else io
  }

  function StopConn(s: Conn): Conn {
    if !s.started then s
    else
      var io := if s.current.Some? then CloseHandler(s.io, s.current.value) else s.io;
      Emit(s.(started := false, shuttingDown := true, current := None, io := io), Failed(None, EntityStopped))
  }

  function NotifyBegin(s: Conn, h: nat, why: Reason): Conn {
    var bad := if s.current == Some(h) then 0 else 1;
    var t := s.(io := CloseHandler(s.io, h), calls := s.calls.(badAsserts := s.calls.badAsserts + bad));
    Push(Emit(t, Failed(Some(h), why)), NotifyClose(h))
  }

  function OnStart(s: Conn): Conn {
    if s.started then s
    else
      var t := s.(started := true, shuttingDown := false, links := s.links.(starts := s.links.starts + 1));
      if s.resolved then Connect(t) else t.(ops := t.ops.(resolving := t.ops.resolving + 1))
  }

  function OnResolved(s: Conn, ok: bool, found: bool): Conn
    requires s.ops.resolving > 0
  {
    var t := s.(ops := s.ops.(resolving := s.ops.resolving - 1));
    if ok then Connect(t.(resolved := t.resolved || found)) else Fail(Drop(t), AfterResolveError)
  }

  function OnConnected(s: Conn, ok: bool): Conn
    requires s.ops.connecting > 0
  {
    var t := s.(ops := s.ops.(connecting := s.ops.connecting - 1));
    if ok then Emit(t.(current := Some(t.io.next), io := t.io.(next := t.io.next + 1)), Opened(t.io.next, 1))
    else Fail(t.(links := t.links.(failures := t.links.failures + 1)), AfterConnectError)
  }

  function OnTimer(s: Conn, ok: bool): Conn
    requires s.ops.waiting > 0
  {
    var t := s.(ops := s.ops.(waiting := s.ops.waiting - 1));
    if ok then Connect(t) else Drop(t)
  }

  /** start_io that finds no remote endpoint. */
  function FailStart(s: Conn, h: nat): Conn {
    var calls := s.calls.(startIos := s.calls.startIos + 1, startFailures := s.calls.startFailures + 1);
    NotifyBegin(s.(io := s.io.(on := s.io.on + {h}), calls := calls), h, SystemError)
  }

  /** start_io that begins a read chain. */
  function BeginRead(s: Conn, h: nat): Conn {
    s.(io := s.io.(on := s.io.on + {h}, chain := s.io.chain + {h}), calls := s.calls.(startIos := s.calls.startIos + 1))
  }

  function OnStartIo(s: Conn, h: nat, endpointError: bool): Conn {
    if h >= s.io.next || h in s.io.on then s
    else if endpointError || h in s.io.shut then FailStart(s, h) // a closed socket has no remote endpoint
    else BeginRead(s, h)
  }

  function OnStopIo(s: Conn, h: nat): Conn {
    if h in s.io.on then NotifyBegin(s.(calls := s.calls.(stopIos := s.calls.stopIos + 1)), h, HandlerStopped) else s
  }

  function OnChainEnd(s: Conn, h: nat): Conn {
    if h !in s.io.chain then s
    else NotifyBegin(s.(io := s.io.(chain := s.io.chain - {h}), calls := s.calls.(chainEnds := s.calls.chainEnds + 1)), h, SystemError)
  }

  function OnReturn(s: Conn, timerThrows: bool): Conn
    requires |s.frames| > 0
  {
    var t := s.(frames := s.frames[1..]);
    match s.frames[0]
    case AfterResolveError => t.(started := false)
    case AfterConnectError =>
      if !t.started || t.shuttingDown then Drop(t)
      else if timerThrows then Fail(Drop(t), AfterTimerError)
      else t.(ops := t.ops.(waiting := t.ops.waiting + 1))
    case AfterTimerError => t.(started := false)
    case NotifyClose(h) => Push(Emit(t, Closed(h, 0)), NotifyStop)
    case NotifyStop => StopConn(t)
  }

  function ConnStep(s: Conn, ev: ConnEvent): Conn {
    match ev
    case Start => OnStart(s)
    case Stop => StopConn(s.(calls := s.calls.(stops := s.calls.stops + if s.started then 1 else 0)))
    case ResolveDone(ok, found) => if s.ops.resolving > 0 then OnResolved(s, ok, found) else s
    case ConnectDone(ok) => if s.ops.connecting > 0 then OnConnected(s, ok) else s
    case TimerDone(ok) => if s.ops.waiting > 0 then OnTimer(s, ok) else s
    case HandlerStartIo(h, err) => OnStartIo(s, h, err)
    case HandlerStopIo(h) => OnStopIo(s, h)
    case ChainEnds(h) => OnChainEnd(s, h)
    case Return(throws) => if |s.frames| > 0 then OnReturn(s, throws) else s
  }

  function ConnRun(s: Conn, evs: seq<ConnEvent>): Conn
    decreases |evs|
  {
    if |evs| == 0 then s else ConnRun(ConnStep(s, evs[0]), evs[1..])
  }

  function Outstanding(o: Ops): nat {
    o.resolving + o.connecting + o.waiting
  }

  /** Frames inside the error callback of a failed connect: the chain goes on, or not, when it returns. */
  function Deciding(fs: seq<Frame>): nat {
    if |fs| == 0 then 0 else (if fs[0].AfterConnectError? then 1 else 0) + Deciding(fs[1..])
  }

  function Closings(fs: seq<Frame>): nat {
    if |fs| == 0 then 0 else (if fs[0].NotifyClose? then 1 else 0) + Closings(fs[1..])
  }

  function Notified(c: Calls): nat {
    c.startFailures + c.stopIos + c.chainEnds
  }

  /** Every successful start is one chain of operations, which is outstanding, deciding, connected or dropped; and the
      callbacks made are accounted for, but for `owed` notifications whose callbacks have not begun. */
  ghost predicate Owing(s: Conn, owed: nat) {
    && s.links.starts == Outstanding(s.ops) + Deciding(s.frames) + s.io.next + s.links.dropped
    && s.links.attempts == s.links.failures + s.ops.connecting + s.io.next
    && s.io.next == CountOpened(s.trace)
    && CountClosed(s.trace) + Closings(s.frames) + owed == Notified(s.calls)
  }

  ghost predicate ChainInv(s: Conn) {
    Owing(s, 0)
  }

  lemma PushCounts(fs: seq<Frame>, f: Frame)
    ensures Deciding([f] + fs) == Deciding(fs) + (if f.AfterConnectError? then 1 else 0)
    ensures Closings([f] + fs) == Closings(fs) + (if f.NotifyClose? then 1 else 0)
  {
    assert ([f] + fs)[1..] == fs;
  }

  lemma StopInv(s: Conn)
    requires ChainInv(s)
    ensures ChainInv(StopConn(s))
  {
    EmitCounts(s.trace, Failed(None, EntityStopped));
  }

  lemma NotifyInv(s: Conn, h: nat, why: Reason)
    requires Owing(s, 1)
    ensures ChainInv(NotifyBegin(s, h, why))
  {
    EmitCounts(s.trace, Failed(Some(h), why));
    PushCounts(s.frames, NotifyClose(h));
  }

  lemma FailCounts(s: Conn, f: Frame)
    requires !f.NotifyClose?
    ensures var t := Fail(s, f);
      && CountOpened(t.trace) == CountOpened(s.trace) && CountClosed(t.trace) == CountClosed(s.trace)
      && Deciding(t.frames) == Deciding(s.frames) + (if f.AfterConnectError? then 1 else 0)
      && Closings(t.frames) == Closings(s.frames)
  {
    EmitCounts(s.trace, Failed(None, SystemError));
    PushCounts(s.frames, f);
  }

  lemma ResolvedInv(s: Conn, ok: bool, found: bool)
    requires ChainInv(s) && s.ops.resolving > 0
    ensures ChainInv(OnResolved(s, ok, found))
  {
    FailCounts(s, AfterResolveError);
  }

  lemma ConnectedInv(s: Conn, ok: bool)
    requires ChainInv(s) && s.ops.connecting > 0
    ensures ChainInv(OnConnected(s, ok))
  {
    FailCounts(s, AfterConnectError);
    EmitCounts(s.trace, Opened(s.io.next, 1));
  }

  lemma StartedInv(s: Conn)
    requires ChainInv(s)
    ensures ChainInv(OnStart(s))
  {
  }

  lemma TimerInv(s: Conn, ok: bool)
    requires ChainInv(s) && s.ops.waiting > 0
    ensures ChainInv(OnTimer(s, ok))
  {
  }

  /** One more notification is counted, and nothing else that the accounts look at has changed. */
  lemma OwesOne(s: Conn, t: Conn)
    requires ChainInv(s)
    requires t.links == s.links && t.ops == s.ops && t.frames == s.frames && t.trace == s.trace
    requires t.io.next == s.io.next && Notified(t.calls) == Notified(s.calls) + 1
    ensures Owing(t, 1)
  {
  }

  lemma StartFailsInv(s: Conn, h: nat)
    requires ChainInv(s)
    ensures ChainInv(FailStart(s, h))
  {
    var calls := s.calls.(startIos := s.calls.startIos + 1, startFailures := s.calls.startFailures + 1);
    var t := s.(io := s.io.(on := s.io.on + {h}), calls := calls);
    OwesOne(s, t);
    NotifyInv(t, h, SystemError);
    assert FailStart(s, h) == NotifyBegin(t, h, SystemError);
  }

  lemma ReadBegunInv(s: Conn, h: nat)
    requires ChainInv(s)
    ensures ChainInv(BeginRead(s, h))
  {
  }

  lemma StartIoInv(s: Conn, h: nat, err: bool)
    requires ChainInv(s)
    ensures ChainInv(OnStartIo(s, h, err))
  {
    if h < s.io.next && h !in s.io.on {
      if err || h in s.io.shut {
        StartFailsInv(s, h);
      } else {
        ReadBegunInv(s, h);
      }
    }
  }

  lemma StopIoInv(s: Conn, h: nat)
    requires ChainInv(s)
    ensures ChainInv(OnStopIo(s, h))
  {
    if h in s.io.on {
      var t := s.(calls := s.calls.(stopIos := s.calls.stopIos + 1));
      OwesOne(s, t);
      NotifyInv(t, h, HandlerStopped);
    }
  }

  lemma ChainEndInv(s: Conn, h: nat)
    requires ChainInv(s)
    ensures ChainInv(OnChainEnd(s, h))
  {
    if h in s.io.chain {
      var t := s.(io := s.io.(chain := s.io.chain - {h}), calls := s.calls.(chainEnds := s.calls.chainEnds + 1));
      OwesOne(s, t);
      NotifyInv(t, h, SystemError);
    }
  }

  lemma DecidedInv(s: Conn, throws: bool)
    requires ChainInv(s) && |s.frames| > 0 && s.frames[0].AfterConnectError?
    ensures ChainInv(OnReturn(s, throws))
  {
    FailCounts(s.(frames := s.frames[1..]), AfterTimerError);
  }

  lemma ClosedInv(s: Conn, h: nat)
    requires ChainInv(s) && |s.frames| > 0 && s.frames[0] == NotifyClose(h)
    ensures ChainInv(OnReturn(s, false))
  {
    EmitCounts(s.trace, Closed(h, 0));
    PushCounts(s.frames[1..], NotifyStop);
  }

  lemma ReturnInv(s: Conn, throws: bool)
    requires ChainInv(s) && |s.frames| > 0
    ensures ChainInv(OnReturn(s, throws))
  {
    match s.frames[0] {
      case AfterConnectError => DecidedInv(s, throws);
      case NotifyClose(h) => ClosedInv(s, h);
      case NotifyStop =>
        var t := s.(frames := s.frames[1..]);
        assert Owing(t, 0);
        StopInv(t);
      case _ =>
    }
  }

  lemma StopCallInv(s: Conn)
    requires ChainInv(s)
    ensures ChainInv(ConnStep(s, Stop))
  {
    var t := s.(calls := s.calls.(stops := s.calls.stops + if s.started then 1 else 0));
    assert Owing(t, 0);
    StopInv(t);
  }

  lemma ChainStep(s: Conn, ev: ConnEvent)
    requires ChainInv(s)
    ensures ChainInv(ConnStep(s, ev))
  {
    match ev {
      case Start => StartedInv(s);
      case Stop => StopCallInv(s);
      case ResolveDone(ok, found) =>
        if s.ops.resolving > 0 {
          ResolvedInv(s, ok, found);
        }
      case ConnectDone(ok) =>
        if s.ops.connecting > 0 {
          ConnectedInv(s, ok);
        }
      case TimerDone(ok) =>
        if s.ops.waiting > 0 {
          TimerInv(s, ok);
        }
      case HandlerStartIo(h, err) => StartIoInv(s, h, err);
      case HandlerStopIo(h) => StopIoInv(s, h);
      case ChainEnds(h) => ChainEndInv(s, h);
      case Return(throws) =>
        if |s.frames| > 0 {
          ReturnInv(s, throws);
        }
    }
  }

  lemma {:induction false} ConnRunInv(s: Conn, evs: seq<ConnEvent>)
    requires ChainInv(s)
    ensures ChainInv(ConnRun(s, evs))
    decreases |evs|
  {
    if |evs| > 0 {
      ChainStep(s, evs[0]);
      ConnRunInv(ConnStep(s, evs[0]), evs[1..]);
    }
  }

  ghost predicate OneChainPerStart(s: Conn) {
    && Outstanding(s.ops) + CountOpened(s.trace) <= s.links.starts
    && (s.links.starts <= 1 ==> Outstanding(s.ops) <= 1 && CountOpened(s.trace) <= 1)
    && s.links.attempts == s.links.failures + s.ops.connecting + CountOpened(s.trace)
    && (s.frames == [] ==> CountClosed(s.trace) == Notified(s.calls))
  }

  lemma ChainBounds(s: Conn)
    requires ChainInv(s)
    ensures OneChainPerStart(s)
  {
  }

  lemma FreshChain(resolved: bool)
    ensures ChainInv(FreshConn(resolved))
  {
    assert CountOpened([]) == 0 && CountClosed([]) == 0 && Deciding([]) == 0 && Closings([]) == 0;
  }

  /** In every run: never more operations outstanding, or open callbacks, than starts; so in one start session at most
      one of resolve, connect and timer is outstanding and the open callback comes at most once, whatever stops
      interleave. Connect attempts are failures plus the one in progress plus connections; and between callbacks a
      close callback has been made for every notification. */
  lemma {:induction false} SingleChain(resolved: bool, evs: seq<ConnEvent>)
    ensures OneChainPerStart(ConnRun(FreshConn(resolved), evs))
  {
    FreshChain(resolved);
    ConnRunInv(FreshConn(resolved), evs);
    ChainBounds(ConnRun(FreshConn(resolved), evs));
  }

  // ----- more than one start -----

  /** Chains of operations that are under way: an operation is outstanding, or its failure is being reported. */
  function Chains(s: Conn): nat {
    Outstanding(s.ops) + Deciding(s.frames)
  }

  /** In every state of the run at most one chain is under way. */
  predicate OneChain(s: Conn, evs: seq<ConnEvent>)
    decreases |evs|
  {
    Chains(s) <= 1 && (|evs| == 0 || OneChain(ConnStep(s, evs[0]), evs[1..]))
  }

  /** A start gets past the gate while a chain is under way. */
  predicate Overlaps(s: Conn, ev: ConnEvent) {
    ev.Start? && !s.started && Chains(s) > 0
  }

  predicate Overlapping(s: Conn, evs: seq<ConnEvent>)
    decreases |evs|
  {
    |evs| > 0 && (Overlaps(s, evs[0]) || Overlapping(ConnStep(s, evs[0]), evs[1..]))
  }

  lemma ReturnChains(s: Conn, throws: bool)
    requires |s.frames| > 0
    ensures Chains(OnReturn(s, throws)) <= Chains(s)
  {
    var t := s.(frames := s.frames[1..]);
    match s.frames[0] {
      case AfterConnectError => FailCounts(t, AfterTimerError);
      case NotifyClose(_) => PushCounts(t.frames, NotifyStop);
      case _ =>
    }
  }

  lemma ResolvedChains(s: Conn, ok: bool, found: bool)
    requires s.ops.resolving > 0
    ensures Chains(OnResolved(s, ok, found)) <= Chains(s)
  {
    if !ok {
      PushCounts(s.frames, AfterResolveError);
    }
  }

  lemma ConnectedChains(s: Conn, ok: bool)
    requires s.ops.connecting > 0
    ensures Chains(OnConnected(s, ok)) <= Chains(s)
  {
    if !ok {
      PushCounts(s.frames, AfterConnectError);
    }
  }

  lemma HandlerChains(s: Conn, ev: ConnEvent)
    requires ev.HandlerStartIo? || ev.HandlerStopIo? || ev.ChainEnds?
    ensures Chains(ConnStep(s, ev)) == Chains(s)
  {
    PushCounts(s.frames, NotifyClose(ev.h));
  }

  /** A start that gets past the gate begins one more chain; no other step does. */
  lemma ChainsStep(s: Conn, ev: ConnEvent)
    ensures ev.Start? && !s.started ==> Chains(ConnStep(s, ev)) == Chains(s) + 1
    ensures !(ev.Start? && !s.started) ==> Chains(ConnStep(s, ev)) <= Chains(s)
  {
    match ev {
      case Start =>
      case Stop =>
      case Return(throws) =>
        if |s.frames| > 0 {
          ReturnChains(s, throws);
        }
      case HandlerStartIo(_, _) => HandlerChains(s, ev);
      case HandlerStopIo(_) => HandlerChains(s, ev);
      case ChainEnds(_) => HandlerChains(s, ev);
      case ResolveDone(ok, found) =>
        if s.ops.resolving > 0 {
          ResolvedChains(s, ok, found);
        }
      case ConnectDone(ok) =>
        if s.ops.connecting > 0 {
          ConnectedChains(s, ok);
        }
      case TimerDone(_) =>
    }
  }

  lemma {:induction false} OneChainRun(s: Conn, evs: seq<ConnEvent>)
    requires Chains(s) <= 1
    ensures OneChain(s, evs) <==> !Overlapping(s, evs)
    decreases |evs|
  {
    if |evs| > 0 {
      var t := ConnStep(s, evs[0]);
      ChainsStep(s, evs[0]);
      if Chains(t) <= 1 {
        OneChainRun(t, evs[1..]);
      }
    }
  }

  /** In every run, restarts included: at most one chain of operations is ever under way exactly if no start gets past
      the gate while one is. */
  lemma {:induction false} OneChainIff(resolved: bool, evs: seq<ConnEvent>)
    ensures OneChain(FreshConn(resolved), evs) <==> !Overlapping(FreshConn(resolved), evs)
  {
    OneChainRun(FreshConn(resolved), evs);
  }

  /** It happens: restarting while an aborted connect is still to be reported makes two chains. */
  lemma RestartMakesTwoChains()
    ensures var s := ConnStep(ConnStep(FreshConn(true), Start), Stop);
      && Overlaps(s, Start)
      && ConnStep(s, Start).ops.connecting == 2 && ConnStep(s, Start).links.starts == 2
  {
  }

  // ----- how often the close callback comes -----

  /** Every start_io that got past its flag failed at once, or its read chain has ended or is running; a handler whose
      chain is running is started or its socket was closed. */
  ghost predicate ReadAccount(s: Conn) {
    && s.calls.startIos == s.calls.startFailures + s.calls.chainEnds + |s.io.chain|
    && forall h :: h in s.io.chain ==> h in s.io.on || h in s.io.shut
  }

  /** Neither handlers nor their accounts change, except that a handler may be closed. */
  ghost predicate SameReads(s: Conn, t: Conn) {
    && t.calls.startIos == s.calls.startIos && t.calls.startFailures == s.calls.startFailures
    && t.calls.chainEnds == s.calls.chainEnds && t.io.chain == s.io.chain
    && (forall h :: h in s.io.on || h in s.io.shut ==> h in t.io.on || h in t.io.shut)
  }

  lemma StopReads(s: Conn)
    ensures SameReads(s, StopConn(s))
  {
  }

  lemma StopIoReads(s: Conn, h: nat)
    ensures SameReads(s, OnStopIo(s, h))
  {
  }

  lemma ReturnReads(s: Conn, throws: bool)
    requires |s.frames| > 0
    ensures SameReads(s, OnReturn(s, throws))
  {
    if s.frames[0].NotifyStop? {
      StopReads(s.(frames := s.frames[1..]));
    }
  }

  lemma OperationReads(s: Conn, ev: ConnEvent)
    requires ev.Start? || IsCompletion(ev)
    ensures var t := ConnStep(s, ev); t.io == s.io.(next := t.io.next) && t.calls == s.calls
  {
    match ev {
      case Start =>
      case ResolveDone(_, _) =>
      case ConnectDone(_) =>
      case TimerDone(_) =>
    }
  }

  lemma OtherReads(s: Conn, ev: ConnEvent)
    requires !ev.HandlerStartIo? && !ev.ChainEnds?
    ensures SameReads(s, ConnStep(s, ev))
  {
    match ev {
      case Stop => StopReads(s.(calls := s.calls.(stops := s.calls.stops + if s.started then 1 else 0)));
      case HandlerStopIo(h) => StopIoReads(s, h);
      case Return(throws) =>
        if |s.frames| > 0 {
          ReturnReads(s, throws);
        }
      case _ => OperationReads(s, ev);
    }
  }

  lemma StartIoReads(s: Conn, h: nat, err: bool)
    requires ReadAccount(s)
    ensures ReadAccount(OnStartIo(s, h, err))
  {
    if h < s.io.next && h !in s.io.on && !err && h !in s.io.shut {
      assert h !in s.io.chain;
      assert |s.io.chain + {h}| == |s.io.chain| + 1;
    }
  }

  lemma ChainEndReads(s: Conn, h: nat)
    requires ReadAccount(s)
    ensures ReadAccount(OnChainEnd(s, h))
  {
    if h in s.io.chain {
      assert |s.io.chain - {h}| == |s.io.chain| - 1;
    }
  }

  lemma ReadsStep(s: Conn, ev: ConnEvent)
    requires ReadAccount(s)
    ensures ReadAccount(ConnStep(s, ev))
  {
    if ev.HandlerStartIo? {
      StartIoReads(s, ev.h, ev.endpointError);
    } else if ev.ChainEnds? {
      ChainEndReads(s, ev.h);
    } else {
      OtherReads(s, ev);
    }
  }

  lemma {:induction false} ReadsRun(s: Conn, evs: seq<ConnEvent>)
    requires ReadAccount(s)
    ensures ReadAccount(ConnRun(s, evs))
    decreases |evs|
  {
    if |evs| > 0 {
      ReadsStep(s, evs[0]);
      ReadsRun(ConnStep(s, evs[0]), evs[1..]);
    }
  }

  /** In every run, between callbacks and with no read chain running, there was one close callback for each start_io that
      got past its flag and one for each stop_io that returned true. So in a session started once neither promise of its
      future pair is set twice exactly if there was at most one of these. */
  lemma {:induction false} CloseCallbacksIff(resolved: bool, evs: seq<ConnEvent>)
    requires ConnRun(FreshConn(resolved), evs).frames == [] && ConnRun(FreshConn(resolved), evs).io.chain == {}
    ensures var t := ConnRun(FreshConn(resolved), evs);
      && CountClosed(t.trace) == t.calls.startIos + t.calls.stopIos
      && (t.links.starts <= 1 ==> (!Delivery.PairOf(t.trace).threw <==> t.calls.startIos + t.calls.stopIos <= 1))
  {
    SingleChain(resolved, evs);
    ReadsRun(FreshConn(resolved), evs);
    Delivery.PairOfIs(ConnRun(FreshConn(resolved), evs).trace);
  }

  /** notify_me as a whole. */
  function NotifyQuiet(s: Conn, h: nat, why: Reason): Conn {
    ConnStep(ConnStep(NotifyBegin(s, h, why), Return(false)), Return(false))
  }

  lemma CloseReturns(s: Conn, h: nat)
    requires s.frames == [NotifyClose(h)]
    ensures ConnStep(s, Return(false)) == s.(frames := [NotifyStop], trace := s.trace + [Closed(h, 0)])
  {
    assert s.frames[1..] == [];
  }

  lemma StopReturns(s: Conn)
    requires s.frames == [NotifyStop]
    ensures var t := ConnStep(s, Return(false));
      && t.frames == [] && !t.started && t.io.chain == s.io.chain && t.links == s.links && t.calls == s.calls
      && CountClosed(t.trace) == CountClosed(s.trace)
  {
    assert s.frames[1..] == [];
    EmitCounts(s.trace, Failed(None, EntityStopped));
  }

  lemma NotifyQuietEffect(s: Conn, h: nat, why: Reason)
    requires s.frames == []
    ensures var t := NotifyQuiet(s, h, why);
      && t.frames == [] && !t.started && t.io.chain == s.io.chain && t.links == s.links
      && t.calls == s.calls.(badAsserts := t.calls.badAsserts) && CountClosed(t.trace) == CountClosed(s.trace) + 1
  {
    var b := NotifyBegin(s, h, why);
    assert b.frames == [NotifyClose(h)];
    EmitCounts(s.trace, Failed(Some(h), why));
    CloseReturns(b, h);
    EmitCounts(b.trace, Closed(h, 0));
    StopReturns(b.(frames := [NotifyStop], trace := b.trace + [Closed(h, 0)]));
  }

  lemma OpenReading()
    ensures ConnStep(ConnStep(ConnStep(FreshConn(true), Start), ConnectDone(true)), HandlerStartIo(0, false))
         == Conn(true, false, true, Some(0), Ops(0, 0, 0), Handlers(1, {0}, {}, {0}), [], Links(1, 1, 0, 0),
                 Calls(0, 1, 0, 0, 0, 0), [Opened(0, 1)])
  {
    assert ConnStep(ConnStep(FreshConn(true), Start), ConnectDone(true))
        == Conn(true, false, true, Some(0), Ops(0, 0, 0), Handlers(1, {}, {}, {}), [], Links(1, 1, 0, 0),
                Calls(0, 0, 0, 0, 0, 0), [Opened(0, 1)]);
  }

  lemma StopIoQuietly(s: Conn, h: nat) returns (t: Conn)
    requires s.frames == [] && h in s.io.on
    ensures t == ConnStep(ConnStep(ConnStep(s, HandlerStopIo(h)), Return(false)), Return(false))
    ensures t.frames == [] && t.io.chain == s.io.chain && t.links == s.links
    ensures t.calls == s.calls.(stopIos := s.calls.stopIos + 1, badAsserts := t.calls.badAsserts)
    ensures CountClosed(t.trace) == CountClosed(s.trace) + 1
  {
    var b := s.(calls := s.calls.(stopIos := s.calls.stopIos + 1));
    assert ConnStep(s, HandlerStopIo(h)) == NotifyBegin(b, h, HandlerStopped);
    NotifyQuietEffect(b, h, HandlerStopped);
    t := NotifyQuiet(b, h, HandlerStopped);
  }

  lemma ChainEndsQuietly(s: Conn, h: nat) returns (t: Conn)
    requires s.frames == [] && h in s.io.chain
    ensures t == ConnStep(ConnStep(ConnStep(s, ChainEnds(h)), Return(false)), Return(false))
    ensures t.frames == [] && t.io.chain == s.io.chain - {h} && t.links == s.links
    ensures t.calls == s.calls.(chainEnds := s.calls.chainEnds + 1, badAsserts := t.calls.badAsserts)
    ensures CountClosed(t.trace) == CountClosed(s.trace) + 1
  {
    var b := s.(io := s.io.(chain := s.io.chain - {h}), calls := s.calls.(chainEnds := s.calls.chainEnds + 1));
    assert ConnStep(s, ChainEnds(h)) == NotifyBegin(b, h, SystemError);
    NotifyQuietEffect(b, h, SystemError);
    t := NotifyQuiet(b, h, SystemError);
  }

  /** It happens: a stop_io on a reading connection, the rest of its notification, and then that of the aborted read. */
  lemma StopIoClosesTwice()
    ensures var reading := ConnStep(ConnStep(ConnStep(FreshConn(true), Start), ConnectDone(true)), HandlerStartIo(0, false));
      var stopped := ConnStep(ConnStep(ConnStep(reading, HandlerStopIo(0)), Return(false)), Return(false));
      var t := ConnStep(ConnStep(ConnStep(stopped, ChainEnds(0)), Return(false)), Return(false));
      && t.frames == [] && t.io.chain == {} && t.links.starts == 1 && t.calls.startIos + t.calls.stopIos == 2
      && CountClosed(t.trace) == 2 && Delivery.PairOf(t.trace).threw
  {
    var reading := ConnStep(ConnStep(ConnStep(FreshConn(true), Start), ConnectDone(true)), HandlerStartIo(0, false));
    OpenReading();
    EmitCounts([], Opened(0, 1));
    assert [] + [Opened(0, 1)] == [Opened(0, 1)];
    var stopped := StopIoQuietly(reading, 0);
    var t := ChainEndsQuietly(stopped, 0);
    Delivery.PairOfIs(t.trace);
  }

  // ----- what the application is told -----

  /** Where a session stands, judged by its callbacks. */
  datatype Phase = Connecting | Open | Erring | Closing | Done | Bad

  function PhaseAfter(p: Phase, c: Callback): Phase {
    match p
    case Connecting =>
      if c == Failed(None, SystemError) then Connecting else if c.Opened? && c.count == 1 then Open else Bad
    case Open => if c.Failed? && c.who.Some? then Erring else Bad
    case Erring => if c.Closed? && c.count == 0 then Closing else Bad
    case Closing => if c == Failed(None, EntityStopped) then Done else Bad
    case Done => Bad
    case Bad => Bad
  }

  function PhaseOf(tr: seq<Callback>): Phase {
    if |tr| == 0 then Connecting else PhaseAfter(PhaseOf(tr[..|tr| - 1]), tr[|tr| - 1])
  }

  lemma PhaseEmit(tr: seq<Callback>, c: Callback)
    ensures PhaseOf(tr + [c]) == PhaseAfter(PhaseOf(tr), c)
  {
    assert (tr + [c])[..|tr|] == tr;
  }

  /** `k` errors, then open, error with the handler, close with count 0, connector stopped, cut off anywhere. */
  ghost predicate Story(tr: seq<Callback>, k: nat) {
    && k <= |tr| <= k + 4
    && (forall i :: 0 <= i < k ==> tr[i] == Failed(None, SystemError))
    && (|tr| > k ==> tr[k].Opened? && tr[k].count == 1)
    && (|tr| > k + 1 ==> tr[k + 1].Failed? && tr[k + 1].who.Some?)
    && (|tr| > k + 2 ==> tr[k + 2].Closed? && tr[k + 2].count == 0)
    && (|tr| > k + 3 ==> tr[k + 3] == Failed(None, EntityStopped))
  }

  lemma {:induction false} PhaseStory(tr: seq<Callback>) returns (k: nat)
    ensures PhaseOf(tr) != Bad ==> Story(tr, k) && match PhaseOf(tr) {
      case Connecting => |tr| == k
      case Open => |tr| == k + 1
      case Erring => |tr| == k + 2
      case Closing => |tr| == k + 3
      case Done => |tr| == k + 4
      case Bad => true
    }
    decreases |tr|
  {
    if |tr| == 0 {
      k := 0;
    } else {
      k := PhaseStory(tr[..|tr| - 1]);
      if PhaseOf(tr) == Connecting {
        k := |tr|;
      }
    }
  }

  /** The converse: a story is in some phase. */
  lemma {:induction false} StoryPhase(tr: seq<Callback>, k: nat)
    requires Story(tr, k)
    ensures PhaseOf(tr) == if |tr| == k then Connecting else if |tr| == k + 1 then Open
                           else if |tr| == k + 2 then Erring else if |tr| == k + 3 then Closing else Done
    decreases |tr|
  {
    if |tr| > 0 {
      var before := tr[..|tr| - 1];
      assert forall i :: 0 <= i < |before| ==> before[i] == tr[i];
      StoryPhase(before, if |tr| == k then k - 1 else k);
    }
  }

  /** At most one start, and neither a stop nor a stop_io by the application. */
  ghost predicate Alone(s: Conn) {
    s.links.starts <= 1 && s.calls.stops == 0 && s.calls.stopIos == 0
  }

  /** And the handler started at most once. */
  ghost predicate Plain(s: Conn) {
    Alone(s) && s.calls.startIos <= 1
  }

  ghost predicate PlainConnecting(s: Conn) {
    && s.io == Handlers(0, {}, {}, {}) && s.current == None && s.calls.startIos == 0
    && Outstanding(s.ops) + |s.frames| <= 1
    && (s.frames != [] ==> s.frames[0].AfterResolveError? || s.frames[0].AfterConnectError? || s.frames[0].AfterTimerError?)
    && (Outstanding(s.ops) == 1 || s.frames == [AfterConnectError] ==> s.started && !s.shuttingDown)
    && (s.links.starts == 0 ==> !s.started && Outstanding(s.ops) == 0 && s.frames == [])
  }

  ghost predicate PlainOpen(s: Conn) {
    && s.started && s.current == Some(0) && s.frames == []
    && ((s.calls.startIos == 0 && s.io == Handlers(1, {}, {}, {})) || (s.calls.startIos == 1 && s.io == Handlers(1, {0}, {}, {0})))
  }

  ghost predicate PlainEnding(s: Conn, f: Frame) {
    s.started && s.current == Some(0) && s.frames == [f] && s.calls.startIos == 1 && s.io == Handlers(1, {}, {0}, {})
  }

  ghost predicate PlainInv(s: Conn) {
    && s.calls.badAsserts == 0
    && (PhaseOf(s.trace) != Connecting ==> s.links.starts == 1 && Outstanding(s.ops) == 0)
    && match PhaseOf(s.trace) {
      case Connecting => PlainConnecting(s)
      case Open => PlainOpen(s)
      case Erring => PlainEnding(s, NotifyClose(0))
      case Closing => PlainEnding(s, NotifyStop)
      case Done => !s.started && s.current == None && s.frames == [] && s.calls.startIos == 1 && s.io == Handlers(1, {}, {0}, {})
      case Bad => false
    }
  }

  lemma CallsGrow(s: Conn, ev: ConnEvent)
    ensures Alone(ConnStep(s, ev)) ==> Alone(s)
    ensures s.calls.startIos <= ConnStep(s, ev).calls.startIos
  {
    if ev.Start? || IsCompletion(ev) {
      OperationReads(s, ev);
    } else if ev.Return? && |s.frames| > 0 {
      ReturnReads(s, ev.timerThrows);
    }
  }

  /** While connecting, only the operations and returning error callbacks do anything. */
  lemma ConnectingIdle(s: Conn, ev: ConnEvent)
    requires PlainConnecting(s) && Plain(ConnStep(s, ev))
    requires ev.Stop? || ev.HandlerStartIo? || ev.HandlerStopIo? || ev.ChainEnds?
    ensures ConnStep(s, ev) == s
  {
  }

  lemma ConnectingStart(s: Conn)
    requires PlainInv(s) && PhaseOf(s.trace) == Connecting && Plain(OnStart(s))
    ensures PlainInv(OnStart(s))
  {
    if !s.started {
      assert s.links.starts == 0;
    }
  }

  lemma ConnectingResolved(s: Conn, ok: bool, found: bool)
    requires PlainInv(s) && PhaseOf(s.trace) == Connecting && s.ops.resolving > 0
    ensures PlainInv(OnResolved(s, ok, found))
  {
    PhaseEmit(s.trace, Failed(None, SystemError));
  }

  lemma ConnectingTimer(s: Conn, ok: bool)
    requires PlainInv(s) && PhaseOf(s.trace) == Connecting && s.ops.waiting > 0
    ensures PlainInv(OnTimer(s, ok))
  {
  }

  lemma ConnectingConnected(s: Conn, ok: bool)
    requires PlainInv(s) && PhaseOf(s.trace) == Connecting && s.ops.connecting > 0 && Plain(s)
    ensures PlainInv(OnConnected(s, ok))
  {
    PhaseEmit(s.trace, Failed(None, SystemError));
    PhaseEmit(s.trace, Opened(0, 1));
  }

  lemma ConnectingReturn(s: Conn, throws: bool)
    requires PlainInv(s) && PhaseOf(s.trace) == Connecting && s.frames != [] && Plain(s)
    ensures PlainInv(OnReturn(s, throws))
  {
    assert s.frames == [s.frames[0]];
    PhaseEmit(s.trace, Failed(None, SystemError));
  }

  lemma PlainFromConnecting(s: Conn, ev: ConnEvent)
    requires PlainInv(s) && PhaseOf(s.trace) == Connecting && Plain(ConnStep(s, ev))
    ensures PlainInv(ConnStep(s, ev))
  {
    CallsGrow(s, ev);
    match ev {
      case Start => ConnectingStart(s);
      case ResolveDone(ok, found) =>
        if s.ops.resolving > 0 {
          ConnectingResolved(s, ok, found);
        }
      case TimerDone(ok) =>
        if s.ops.waiting > 0 {
          ConnectingTimer(s, ok);
        }
      case ConnectDone(ok) =>
        if s.ops.connecting > 0 {
          ConnectingConnected(s, ok);
        }
      case Return(throws) =>
        if s.frames != [] {
          ConnectingReturn(s, throws);
        }
      case _ => ConnectingIdle(s, ev);
    }
  }

  /** Once open, only starting the handler and the end of its read chain do anything. */
  lemma OpenIdle(s: Conn, ev: ConnEvent)
    requires PlainOpen(s) && Outstanding(s.ops) == 0 && Plain(ConnStep(s, ev))
    requires !ev.HandlerStartIo? && !ev.ChainEnds?
    ensures ConnStep(s, ev) == s
  {
  }

  lemma OpenStartIo(s: Conn, h: nat, err: bool)
    requires PlainInv(s) && PhaseOf(s.trace) == Open && Plain(OnStartIo(s, h, err))
    ensures PlainInv(OnStartIo(s, h, err))
  {
    PhaseEmit(s.trace, Failed(Some(0), SystemError));
    if s.io.next <= h || h in s.io.on {
      assert OnStartIo(s, h, err) == s;
    } else {
      assert h == 0 && s.calls.startIos == 0;
    }
  }

  lemma OpenChainEnd(s: Conn, h: nat)
    requires PlainInv(s) && PhaseOf(s.trace) == Open && Plain(s)
    ensures PlainInv(OnChainEnd(s, h))
  {
    PhaseEmit(s.trace, Failed(Some(0), SystemError));
  }

  lemma PlainFromOpen(s: Conn, ev: ConnEvent)
    requires PlainInv(s) && PhaseOf(s.trace) == Open && Plain(ConnStep(s, ev))
    ensures PlainInv(ConnStep(s, ev))
  {
    CallsGrow(s, ev);
    match ev {
      case HandlerStartIo(h, err) => OpenStartIo(s, h, err);
      case ChainEnds(h) => OpenChainEnd(s, h);
      case _ => OpenIdle(s, ev);
    }
  }

  /** While the notification runs, and after it, nothing happens but the returns of its callbacks. */
  lemma EndingIdle(s: Conn, ev: ConnEvent)
    requires s.io == Handlers(1, {}, {0}, {}) && Outstanding(s.ops) == 0 && s.calls.startIos == 1 && s.links.starts == 1
    requires Plain(ConnStep(s, ev)) && !ev.Return?
    ensures ConnStep(s, ev) == s
  {
  }

  lemma EndingReturn(s: Conn, throws: bool)
    requires PlainInv(s) && PhaseOf(s.trace) in {Erring, Closing, Done}
    ensures PlainInv(ConnStep(s, Return(throws)))
  {
    PhaseEmit(s.trace, Closed(0, 0));
    PhaseEmit(s.trace, Failed(None, EntityStopped));
    if s.frames != [] {
      assert s.frames == [s.frames[0]] && s.frames[1..] == [];
    }
  }

  lemma PlainFromEnding(s: Conn, ev: ConnEvent)
    requires PlainInv(s) && PhaseOf(s.trace) in {Erring, Closing, Done} && Plain(ConnStep(s, ev))
    ensures PlainInv(ConnStep(s, ev))
  {
    if ev.Return? {
      EndingReturn(s, ev.timerThrows);
    } else {
      EndingIdle(s, ev);
    }
  }

  lemma PlainStep(s: Conn, ev: ConnEvent)
    requires PlainInv(s) && Plain(ConnStep(s, ev))
    ensures PlainInv(ConnStep(s, ev))
  {
    if PhaseOf(s.trace) == Connecting {
      PlainFromConnecting(s, ev);
    } else if PhaseOf(s.trace) == Open {
      PlainFromOpen(s, ev);
    } else {
      PlainFromEnding(s, ev);
    }
  }

  lemma OnlyStartIoCounts(s: Conn, ev: ConnEvent)
    requires ConnStep(s, ev).calls.startIos != s.calls.startIos
    ensures ev.HandlerStartIo? && ev.h < s.io.next && ev.h !in s.io.on
    ensures ConnStep(s, ev).calls.startIos == s.calls.startIos + 1
  {
  }

  /** A second start_io that gets past its flag meets a closed handler, and notifies out of turn. */
  lemma SecondStartIo(s: Conn, ev: ConnEvent)
    requires PlainInv(s) && Plain(s) && !Plain(ConnStep(s, ev)) && Alone(ConnStep(s, ev))
    ensures PhaseOf(ConnStep(s, ev).trace) == Bad
  {
    OnlyStartIoCounts(s, ev);
    assert s.calls.startIos == 1;
    PhaseEmit(s.trace, Failed(Some(ev.h), SystemError));
    assert s.io == Handlers(1, {}, {0}, {}) && ev.h == 0;
  }

  ghost predicate OneMore(s: Conn, t: Conn) {
    t.trace == s.trace || exists c :: t.trace == s.trace + [c]
  }

  lemma StopTrace(s: Conn)
    ensures OneMore(s, StopConn(s))
  {
    if s.started {
      assert StopConn(s).trace == s.trace + [Failed(None, EntityStopped)];
    }
  }

  lemma ReturnTrace(s: Conn, throws: bool)
    requires |s.frames| > 0
    ensures OneMore(s, OnReturn(s, throws))
  {
    var t := OnReturn(s, throws);
    match s.frames[0] {
      case NotifyStop => StopTrace(s.(frames := s.frames[1..]));
      case NotifyClose(h) => assert t.trace == s.trace + [Closed(h, 0)];
      case _ => assert t.trace == s.trace || t.trace == s.trace + [Failed(None, SystemError)];
    }
  }

  lemma OperationTrace(s: Conn, ev: ConnEvent)
    requires ev.Start? || IsCompletion(ev)
    ensures OneMore(s, ConnStep(s, ev))
  {
    var t := ConnStep(s, ev);
    var c := if ev.ConnectDone? && ev.ok then Opened(s.io.next, 1) else Failed(None, SystemError);
    assert t.trace == s.trace || t.trace == s.trace + [c];
  }

  /** At most one callback begins in a step. */
  lemma TraceStep(s: Conn, ev: ConnEvent)
    ensures OneMore(s, ConnStep(s, ev))
  {
    var t := ConnStep(s, ev);
    match ev {
      case Stop => StopTrace(s.(calls := s.calls.(stops := s.calls.stops + if s.started then 1 else 0)));
      case HandlerStartIo(h, _) => assert t.trace == s.trace || t.trace == s.trace + [Failed(Some(h), SystemError)];
      case HandlerStopIo(h) => assert t.trace == s.trace || t.trace == s.trace + [Failed(Some(h), HandlerStopped)];
      case ChainEnds(h) => assert t.trace == s.trace || t.trace == s.trace + [Failed(Some(h), SystemError)];
      case Return(throws) =>
        if |s.frames| > 0 {
          ReturnTrace(s, throws);
        }
      case _ => OperationTrace(s, ev);
    }
  }

  lemma {:induction false} BadStays(s: Conn, evs: seq<ConnEvent>)
    requires PhaseOf(s.trace) == Bad
    ensures PhaseOf(ConnRun(s, evs).trace) == Bad
    decreases |evs|
  {
    if |evs| > 0 {
      TraceStep(s, evs[0]);
      var t := ConnStep(s, evs[0]);
      if t.trace != s.trace {
        var c :| t.trace == s.trace + [c];
        PhaseEmit(s.trace, c);
      }
      BadStays(t, evs[1..]);
    }
  }

  lemma {:induction false} CallsGrowRun(s: Conn, evs: seq<ConnEvent>)
    ensures Alone(ConnRun(s, evs)) ==> Alone(s)
    ensures s.calls.startIos <= ConnRun(s, evs).calls.startIos
    decreases |evs|
  {
    if |evs| > 0 {
      CallsGrow(s, evs[0]);
      CallsGrowRun(ConnStep(s, evs[0]), evs[1..]);
    }
  }

  lemma {:induction false} AloneRun(s: Conn, evs: seq<ConnEvent>)
    requires PlainInv(s) && Plain(s) && Alone(ConnRun(s, evs))
    ensures var t := ConnRun(s, evs);
      if t.calls.startIos <= 1 then PlainInv(t) else PhaseOf(t.trace) == Bad
    decreases |evs|
  {
    if |evs| > 0 {
      var t := ConnStep(s, evs[0]);
      CallsGrowRun(t, evs[1..]);
      if Plain(t) {
        PlainStep(s, evs[0]);
        AloneRun(t, evs[1..]);
      } else {
        SecondStartIo(s, evs[0]);
        BadStays(t, evs[1..]);
      }
    }
  }

  /** Without a stop or stop_io of the application, one session tells it: errors, open, one error, close with count 0,
      connector stopped, in that order and each at most once after the first open, cut off anywhere; exactly if start_io
      gets past its flag at most once. And then the assert in notify_me holds. */
  lemma {:induction false} CallbackStoryIff(resolved: bool, evs: seq<ConnEvent>)
    requires Alone(ConnRun(FreshConn(resolved), evs))
    ensures var t := ConnRun(FreshConn(resolved), evs);
      && ((exists k :: Story(t.trace, k)) <==> t.calls.startIos <= 1)
      && (t.calls.startIos <= 1 ==> t.calls.badAsserts == 0)
  {
    var t := ConnRun(FreshConn(resolved), evs);
    assert PhaseOf([]) == Connecting;
    AloneRun(FreshConn(resolved), evs);
    if t.calls.startIos <= 1 {
      var k := PhaseStory(t.trace);
      assert Story(t.trace, k);
    } else if k :| Story(t.trace, k) {
      StoryPhase(t.trace, k);
    }
  }

  /** The exception is real: the handler's first start finds no remote endpoint, and the error callback starts it again. */
  lemma SecondStartNotifiesTwice()
    ensures var open := ConnStep(ConnStep(FreshConn(true), Start), ConnectDone(true));
      var t := ConnStep(ConnStep(open, HandlerStartIo(0, true)), HandlerStartIo(0, false));
      && Alone(t) && t.calls.startIos == 2
      && t.trace == [Opened(0, 1), Failed(Some(0), SystemError), Failed(Some(0), SystemError)]
  {
  }

  // ----- the assert in notify_me -----

  predicate Reading(s: Conn) {
    s.current.Some? && s.current.value in s.io.chain
  }

  /** The connector lets go of its handler while that handler reads, or start_io gets past its flag on a handler that
      the connector does not hold. */
  predicate Severs(s: Conn, ev: ConnEvent) {
    match ev
    case Stop => s.started && Reading(s)
    case Return(_) => |s.frames| > 0 && s.frames[0].NotifyStop? && s.started && Reading(s)
    case ConnectDone(ok) => ok && s.ops.connecting > 0 && Reading(s)
    case HandlerStartIo(h, _) => h < s.io.next && h !in s.io.on && s.current != Some(h)
    case _ => false
  }

  predicate Severed(s: Conn, evs: seq<ConnEvent>)
    decreases |evs|
  {
    |evs| > 0 && (Severs(s, evs[0]) || Severed(ConnStep(s, evs[0]), evs[1..]))
  }

  ghost predicate HandlersOk(s: Conn) {
    && s.io.on <= s.io.chain
    && (forall h :: h in s.io.chain ==> h < s.io.next)
    && (s.current.Some? ==> s.current.value < s.io.next)
  }

  /** No assert has failed, and whoever can still notify is the handler that the connector holds. */
  ghost predicate Sound(s: Conn) {
    s.calls.badAsserts == 0 && forall h :: h in s.io.chain ==> s.current == Some(h)
  }

  lemma NotifySound(s: Conn, h: nat, why: Reason)
    requires s.io.on - {h} <= s.io.chain && (forall g :: g in s.io.chain ==> g < s.io.next)
    requires s.current.Some? ==> s.current.value < s.io.next
    ensures HandlersOk(NotifyBegin(s, h, why))
    ensures Sound(NotifyBegin(s, h, why)) <==> Sound(s) && s.current == Some(h)
  {
    var t := NotifyBegin(s, h, why);
    assert t.current == s.current && t.io.on == s.io.on - {h} && t.io.chain == s.io.chain && t.io.next == s.io.next;
  }

  lemma ReadSound(s: Conn, h: nat)
    requires HandlersOk(s) && h < s.io.next
    ensures var t := BeginRead(s, h); HandlersOk(t) && (Sound(t) <==> Sound(s) && s.current == Some(h))
  {
    assert h in BeginRead(s, h).io.chain;
  }

  lemma StartFailsSound(s: Conn, h: nat)
    requires HandlersOk(s) && h < s.io.next
    ensures var t := FailStart(s, h); HandlersOk(t) && (Sound(t) <==> Sound(s) && s.current == Some(h))
  {
    var calls := s.calls.(startIos := s.calls.startIos + 1, startFailures := s.calls.startFailures + 1);
    NotifySound(s.(io := s.io.(on := s.io.on + {h}), calls := calls), h, SystemError);
  }

  lemma StartIoSound(s: Conn, h: nat, err: bool)
    requires HandlersOk(s)
    ensures HandlersOk(OnStartIo(s, h, err))
    ensures Sound(OnStartIo(s, h, err)) <==> Sound(s) && !Severs(s, HandlerStartIo(h, err))
  {
    if h < s.io.next && h !in s.io.on {
      if err || h in s.io.shut {
        StartFailsSound(s, h);
      } else {
        ReadSound(s, h);
      }
    }
  }

  /** A handler that can be stopped, or whose chain can end, is reading: it is sound only if it is the one held. */
  lemma StopIoSound(s: Conn, h: nat)
    requires HandlersOk(s)
    ensures HandlersOk(OnStopIo(s, h)) && (Sound(OnStopIo(s, h)) <==> Sound(s))
  {
    if h in s.io.on {
      NotifySound(s.(calls := s.calls.(stopIos := s.calls.stopIos + 1)), h, HandlerStopped);
    }
  }

  lemma ChainEndSound(s: Conn, h: nat)
    requires HandlersOk(s)
    ensures HandlersOk(OnChainEnd(s, h)) && (Sound(OnChainEnd(s, h)) <==> Sound(s))
  {
    if h in s.io.chain {
      var t := s.(io := s.io.(chain := s.io.chain - {h}), calls := s.calls.(chainEnds := s.calls.chainEnds + 1));
      NotifySound(t, h, SystemError);
      assert forall g :: g in s.io.chain <==> g == h || g in t.io.chain;
    }
  }

  lemma StopSound(s: Conn)
    requires HandlersOk(s)
    ensures HandlersOk(StopConn(s))
    ensures Sound(StopConn(s)) <==> Sound(s) && !(s.started && Reading(s))
  {
    if s.started {
      var t := StopConn(s);
      assert t.io.chain == s.io.chain && t.io.on <= s.io.on && t.current == None;
    }
  }

  lemma ConnectSound(s: Conn, ok: bool)
    requires HandlersOk(s) && s.ops.connecting > 0
    ensures HandlersOk(OnConnected(s, ok))
    ensures Sound(OnConnected(s, ok)) <==> Sound(s) && !(ok && Reading(s))
  {
    var t := OnConnected(s, ok);
    assert t.io.chain == s.io.chain && t.io.on == s.io.on;
  }

  lemma SameHandlers(s: Conn, ev: ConnEvent)
    requires ev.Start? || ev.ResolveDone? || ev.TimerDone? || (ev.Return? && !(|s.frames| > 0 && s.frames[0].NotifyStop?))
    ensures var t := ConnStep(s, ev); t.io == s.io && t.current == s.current && t.calls == s.calls
  {
  }

  lemma SoundStep(s: Conn, ev: ConnEvent)
    requires HandlersOk(s)
    ensures HandlersOk(ConnStep(s, ev))
    ensures Sound(ConnStep(s, ev)) <==> Sound(s) && !Severs(s, ev)
  {
    match ev {
      case HandlerStartIo(h, err) => StartIoSound(s, h, err);
      case HandlerStopIo(h) => StopIoSound(s, h);
      case ChainEnds(h) => ChainEndSound(s, h);
      case Stop => StopSound(s.(calls := s.calls.(stops := s.calls.stops + if s.started then 1 else 0)));
      case ConnectDone(ok) =>
        if s.ops.connecting > 0 {
          ConnectSound(s, ok);
        }
      case Return(throws) =>
        if |s.frames| > 0 && s.frames[0].NotifyStop? {
          StopSound(s.(frames := s.frames[1..]));
        } else {
          SameHandlers(s, ev);
        }
      case _ => SameHandlers(s, ev);
    }
  }

  lemma {:induction false} SoundRun(s: Conn, evs: seq<ConnEvent>)
    requires HandlersOk(s)
    ensures Sound(ConnRun(s, evs)) <==> Sound(s) && !Severed(s, evs)
    decreases |evs|
  {
    if |evs| > 0 {
      SoundStep(s, evs[0]);
      SoundRun(ConnStep(s, evs[0]), evs[1..]);
    }
  }

  /** In every run, restarts and calls from inside callbacks included: the assert in notify_me has held whenever the
      connector never let go of a reading handler and start_io never passed on a handler it did not hold; and once all
      read chains have ended, it has held exactly then. */
  lemma {:induction false} AssertIff(resolved: bool, evs: seq<ConnEvent>)
    ensures var t := ConnRun(FreshConn(resolved), evs);
      && (!Severed(FreshConn(resolved), evs) ==> t.calls.badAsserts == 0)
      && (t.io.chain == {} ==> (t.calls.badAsserts == 0 <==> !Severed(FreshConn(resolved), evs)))
  {
    SoundRun(FreshConn(resolved), evs);
  }

  /** A connected and started handler makes stop() trip the assert: stop() closes and forgets the handler, and the
      aborted read then notifies. The close callback arrives after connector-stopped. */
  lemma StopWhileReading()
    ensures var open := ConnStep(ConnStep(ConnStep(FreshConn(true), Start), ConnectDone(true)), HandlerStartIo(0, false));
      var t := ConnStep(ConnStep(ConnStep(open, Stop), ChainEnds(0)), Return(false));
      && Severs(open, Stop) && t.calls.badAsserts == 1
      && t.trace == [Opened(0, 1), Failed(None, EntityStopped), Failed(Some(0), SystemError), Closed(0, 0)]
  {
  }

  // ----- stopping -----

  /** No operation is outstanding and none will be: the connector is not started. */
  ghost predicate Quiet(s: Conn) {
    !s.started && Outstanding(s.ops) == 0
  }

  lemma QuietStep(s: Conn, ev: ConnEvent)
    requires Quiet(s) && ConnStep(s, ev).links.starts == s.links.starts
    ensures var t := ConnStep(s, ev); Quiet(t) && t.links.attempts == s.links.attempts && t.io.next == s.io.next
  {
  }

  lemma StartsGrow(s: Conn, ev: ConnEvent)
    ensures s.links.starts <= ConnStep(s, ev).links.starts
  {
  }

  lemma {:induction false} StartsGrowRun(s: Conn, evs: seq<ConnEvent>)
    ensures s.links.starts <= ConnRun(s, evs).links.starts
    decreases |evs|
  {
    if |evs| > 0 {
      StartsGrow(s, evs[0]);
      StartsGrowRun(ConnStep(s, evs[0]), evs[1..]);
    }
  }

  lemma {:induction false} QuietRun(s: Conn, evs: seq<ConnEvent>)
    requires Quiet(s) && ConnRun(s, evs).links.starts == s.links.starts
    ensures var t := ConnRun(s, evs); Quiet(t) && t.links.attempts == s.links.attempts && t.io.next == s.io.next
    decreases |evs|
  {
    if |evs| > 0 {
      StartsGrow(s, evs[0]);
      StartsGrowRun(ConnStep(s, evs[0]), evs[1..]);
      QuietStep(s, evs[0]);
      QuietRun(ConnStep(s, evs[0]), evs[1..]);
    }
  }

  /** The completion of the one outstanding operation. */
  function Completion(o: Ops, ok: bool): ConnEvent {
    if o.resolving > 0 then ResolveDone(ok, ok) else if o.connecting > 0 then ConnectDone(ok) else TimerDone(ok)
  }

  /** Stopped, with the operations as they were. */
  ghost predicate Waiting(s: Conn, t: Conn) {
    && !t.started && t.ops == s.ops && t.io.next == s.io.next
    && t.links == s.links.(dropped := t.links.dropped)
  }

  lemma WaitingStep(s: Conn, t: Conn, ev: ConnEvent)
    requires Waiting(s, t) && !ev.Start? && !IsCompletion(ev)
    ensures Waiting(s, ConnStep(t, ev))
  {
  }

  lemma {:induction false} WaitingRun(s: Conn, t: Conn, evs: seq<ConnEvent>)
    requires Waiting(s, t) && forall i :: 0 <= i < |evs| ==> !evs[i].Start? && !IsCompletion(evs[i])
    ensures Waiting(s, ConnRun(t, evs))
    decreases |evs|
  {
    if |evs| > 0 {
      WaitingStep(s, t, evs[0]);
      WaitingRun(s, ConnStep(t, evs[0]), evs[1..]);
    }
  }

  lemma CompleteStopped(s: Conn, w: Conn, ok: bool)
    requires Outstanding(s.ops) == 1 && Waiting(s, w)
    ensures var u := ConnStep(w, Completion(s.ops, ok));
      && u.links.starts == s.links.starts
      && (!ok ==> Quiet(u) && u.links.attempts == s.links.attempts && u.io.next == s.io.next)
      && (ok ==> u.links.attempts == s.links.attempts + 1 || u.io.next == s.io.next + 1)
  {
  }

  /** stop() during a resolve, connect or wait, then anything but starts and completions, and then the completion of
      that operation. If it is an error, no later step of any run without a new start begins an operation or makes a
      handler, and no further completion comes. If the operation had already succeeded when stop() ran, its completion
      begins a connect or opens a connection. */
  lemma {:induction false} StopIsFinalIff(s: Conn, between: seq<ConnEvent>, ok: bool, evs: seq<ConnEvent>)
    requires s.started && Outstanding(s.ops) == 1
    requires forall i :: 0 <= i < |between| ==> !between[i].Start? && !IsCompletion(between[i])
    requires var u := ConnStep(ConnRun(ConnStep(s, Stop), between), Completion(s.ops, ok));
      ConnRun(u, evs).links.starts == s.links.starts
    ensures var u := ConnStep(ConnRun(ConnStep(s, Stop), between), Completion(s.ops, ok));
      var t := ConnRun(u, evs);
      && (Quiet(u) && u.links.attempts == s.links.attempts && u.io.next == s.io.next <==> !ok)
      && (!ok ==> Quiet(t) && t.links.attempts == s.links.attempts && t.io.next == s.io.next)
      && (ok ==> u.links.attempts == s.links.attempts + 1 || u.io.next == s.io.next + 1)
  {
    var w := ConnRun(ConnStep(s, Stop), between);
    WaitingRun(s, ConnStep(s, Stop), between);
    CompleteStopped(s, w, ok);
    if !ok {
      QuietRun(ConnStep(w, Completion(s.ops, ok)), evs);
    }
  }

  // ----- what stopping closes, and what a resolve leaves -----

  /** A stop that gets past the gate closes the socket of the handler the connector holds, if that handler is started,
      and forgets it; other handlers are left alone. */
  lemma StopCloses(s: Conn)
    requires s.started
    ensures var t := ConnStep(s, Stop);
      && !t.started && t.shuttingDown && t.current == None
      && (s.current.Some? ==> s.current.value !in t.io.on && (s.current.value in s.io.on ==> s.current.value in t.io.shut))
      && (forall h :: s.current != Some(h) ==> (h in t.io.on <==> h in s.io.on) && (h in t.io.shut <==> h in s.io.shut))
      && t.io.chain == s.io.chain && t.io.next == s.io.next
  {
  }

  /** The step stops the connector while it holds handler `h`. */
  predicate StopsHolding(s: Conn, ev: ConnEvent, h: nat) {
    && s.started && s.current == Some(h)
    && (ev.Stop? || (ev.Return? && |s.frames| > 0 && s.frames[0].NotifyStop?))
  }

  /** Whether handler `h` is started after a step, if it was so before (`on`): a start_io that finds the endpoint of an
      open socket starts it; stop_io, the end of its read chain, and a stop of the connector that holds it undo that. */
  predicate OnAfter(s: Conn, ev: ConnEvent, h: nat, on: bool) {
    if ev.HandlerStartIo? && ev.h == h then on || (h < s.io.next && !ev.endpointError && h !in s.io.shut)
    else if ev.HandlerStopIo? && ev.h == h then false
    else if ev.ChainEnds? && ev.h == h then on && h !in s.io.chain
    else on && !StopsHolding(s, ev, h)
  }

  predicate OnInRun(s: Conn, evs: seq<ConnEvent>, h: nat, on: bool)
    decreases |evs|
  {
    if |evs| == 0 then on else OnInRun(ConnStep(s, evs[0]), evs[1..], h, OnAfter(s, evs[0], h, on))
  }

  lemma StartIoOn(s: Conn, g: nat, err: bool, h: nat)
    ensures h in OnStartIo(s, g, err).io.on <==> OnAfter(s, HandlerStartIo(g, err), h, h in s.io.on)
  {
  }

  lemma ReturnOn(s: Conn, throws: bool, h: nat)
    requires |s.frames| > 0
    ensures h in OnReturn(s, throws).io.on <==> OnAfter(s, Return(throws), h, h in s.io.on)
  {
  }

  lemma OnStep(s: Conn, ev: ConnEvent, h: nat)
    ensures h in ConnStep(s, ev).io.on <==> OnAfter(s, ev, h, h in s.io.on)
  {
    match ev {
      case HandlerStartIo(g, err) => StartIoOn(s, g, err, h);
      case HandlerStopIo(_) =>
      case ChainEnds(_) =>
      case Stop =>
      case Return(throws) =>
        if |s.frames| > 0 {
          ReturnOn(s, throws, h);
        }
      case _ => OperationReads(s, ev);
    }
  }

  lemma {:induction false} OnRun(s: Conn, evs: seq<ConnEvent>, h: nat)
    ensures h in ConnRun(s, evs).io.on <==> OnInRun(s, evs, h, h in s.io.on)
    decreases |evs|
  {
    if |evs| > 0 {
      OnStep(s, evs[0], h);
      OnRun(ConnStep(s, evs[0]), evs[1..], h);
    }
  }

  /** In every run, for every handler: is_io_started is true exactly if a start_io succeeded and, since then, there was no
      stop_io, its read chain did not end, and the connector was not stopped while it held the handler. */
  lemma {:induction false} HandlerStartedIff(resolved: bool, evs: seq<ConnEvent>, h: nat)
    ensures h in ConnRun(FreshConn(resolved), evs).io.on <==> OnInRun(FreshConn(resolved), evs, h, false)
  {
    OnRun(FreshConn(resolved), evs, h);
  }

  predicate FindsEndpoints(s: Conn, ev: ConnEvent) {
    ev == ResolveDone(true, true) && s.ops.resolving > 0
  }

  predicate FoundInRun(s: Conn, evs: seq<ConnEvent>)
    decreases |evs|
  {
    |evs| > 0 && (FindsEndpoints(s, evs[0]) || FoundInRun(ConnStep(s, evs[0]), evs[1..]))
  }

  lemma ResolvedStep(s: Conn, ev: ConnEvent)
    ensures ConnStep(s, ev).resolved <==> s.resolved || FindsEndpoints(s, ev)
  {
    match ev {
      case Return(_) =>
      case HandlerStartIo(_, _) =>
      case HandlerStopIo(_) =>
      case ChainEnds(_) =>
      case Stop =>
      case _ =>
    }
  }

  lemma {:induction false} ResolvedRun(s: Conn, evs: seq<ConnEvent>)
    ensures ConnRun(s, evs).resolved <==> s.resolved || FoundInRun(s, evs)
    decreases |evs|
  {
    if |evs| > 0 {
      ResolvedStep(s, evs[0]);
      ResolvedRun(ConnStep(s, evs[0]), evs[1..]);
    }
  }

  /** In every run the connector has endpoints exactly if it was made with some or a resolve found some; a start then
      connects, and else resolves. */
  lemma {:induction false} ResolvedIff(resolved: bool, evs: seq<ConnEvent>)
    ensures var s := ConnRun(FreshConn(resolved), evs);
      && (s.resolved <==> resolved || FoundInRun(FreshConn(resolved), evs))
      && (!s.started && s.resolved ==> ConnStep(s, Start).ops == s.ops.(connecting := s.ops.connecting + 1))
      && (!s.started && !s.resolved ==> ConnStep(s, Start).ops == s.ops.(resolving := s.ops.resolving + 1))
  {
    ResolvedRun(FreshConn(resolved), evs);
  }

  // ----- the class, with callbacks that return at once -----

  /** A failed resolve. */
  lemma ResolveFails(s: Conn, found: bool)
    requires s.ops.resolving > 0 && s.frames == []
    ensures ConnStep(ConnStep(s, ResolveDone(false, found)), Return(false))
         == s.(started := false, ops := s.ops.(resolving := s.ops.resolving - 1),
               links := s.links.(dropped := s.links.dropped + 1), trace := s.trace + [Failed(None, SystemError)])
  {
    var t := OnResolved(s, false, found);
    assert t.frames == [AfterResolveError] && t.frames[1..] == s.frames;
  }

  /** A failed connect when the entity goes on: a wait is begun, or the timer throws and the entity is stopped. */
  lemma ConnectFails(s: Conn)
    requires s.ops.connecting > 0 && s.frames == []
    ensures ConnStep(s, ConnectDone(false))
         == s.(ops := s.ops.(connecting := s.ops.connecting - 1), links := s.links.(failures := s.links.failures + 1),
               trace := s.trace + [Failed(None, SystemError)], frames := [AfterConnectError])
  {
    assert [AfterConnectError] + [] == [AfterConnectError];
  }

  lemma WaitOrGiveUp(s: Conn, throws: bool)
    requires s.frames == [AfterConnectError]
    ensures var t := ConnStep(s, Return(throws));
      if !s.started || s.shuttingDown then t == s.(frames := [], links := s.links.(dropped := s.links.dropped + 1))
      else if !throws then t == s.(frames := [], ops := s.ops.(waiting := s.ops.waiting + 1))
      else t == s.(frames := [AfterTimerError], links := s.links.(dropped := s.links.dropped + 1),
                   trace := s.trace + [Failed(None, SystemError)])
  {
    assert s.frames[1..] == [];
  }

  lemma TimerErrorReturns(s: Conn)
    requires s.frames == [AfterTimerError]
    ensures ConnStep(s, Return(false)) == s.(frames := [], started := false)
  {
    assert s.frames[1..] == [];
  }

  /** The end of notify_me. */
  lemma NotifyStops(s: Conn, h: nat, why: Reason)
    requires s.frames == []
    ensures var t := NotifyQuiet(s, h, why);
      && t.frames == [] && !t.started
      && t.trace == s.trace + [Failed(Some(h), why), Closed(h, 0)] + (if s.started then [Failed(None, EntityStopped)] else [])
      && t.current == (if s.started then None else s.current) && t.shuttingDown == (s.shuttingDown || s.started)
      && t.io.on == s.io.on - {h} - (if s.started && s.current.Some? then {s.current.value} else {})
      && t.io.next == s.io.next && t.resolved == s.resolved && t.ops == s.ops
  {
    var b := NotifyBegin(s, h, why);
    assert b.frames == [NotifyClose(h)] && b.io.on == s.io.on - {h};
    CloseReturns(b, h);
    var c := b.(frames := [NotifyStop], trace := b.trace + [Closed(h, 0)]);
    assert c.frames[1..] == [];
    assert c.trace == s.trace + [Failed(Some(h), why), Closed(h, 0)];
    assert c.trace + [] == c.trace;
  }

  /** The read chain of the connected handler ends. */
  lemma EndOfSession(s: Conn)
    requires s.started && s.current == Some(0) && s.frames == [] && s.io == Handlers(1, {0}, {}, {0})
    ensures var t := ConnStep(ConnStep(ConnStep(s, ChainEnds(0)), Return(false)), Return(false));
      && !t.started && t.shuttingDown && t.current == None && t.ops == s.ops && t.io == Handlers(1, {}, {0}, {})
      && t.trace == s.trace + [Failed(Some(0), SystemError), Closed(0, 0), Failed(None, EntityStopped)]
  {
    var b := ConnStep(s, ChainEnds(0));
    assert b.frames == [NotifyClose(0)] && b.io == Handlers(1, {}, {0}, {});
    CloseReturns(b, 0);
    var c := ConnStep(b, Return(false));
    assert c.frames[1..] == [];
    var t := ConnStep(c, Return(false));
    assert t.trace == s.trace + [Failed(Some(0), SystemError)] + [Closed(0, 0)] + [Failed(None, EntityStopped)];
  }

  /** A session from its start to the end of its connection, a failed attempt included, word for word. */
  lemma WholeSession()
    ensures var waiting := ConnStep(ConnStep(ConnStep(FreshConn(true), Start), ConnectDone(false)), Return(false));
      var reading := ConnStep(ConnStep(ConnStep(waiting, TimerDone(true)), ConnectDone(true)), HandlerStartIo(0, false));
      var t := ConnStep(ConnStep(ConnStep(reading, ChainEnds(0)), Return(false)), Return(false));
      && waiting.ops == Ops(0, 0, 1) && waiting.started && reading.io == Handlers(1, {0}, {}, {0}) && reading.current == Some(0)
      && !t.started && t.shuttingDown && t.current == None && t.ops == Ops(0, 0, 0) && t.io == Handlers(1, {}, {0}, {})
      && t.trace == [Failed(None, SystemError), Opened(0, 1), Failed(Some(0), SystemError), Closed(0, 0), Failed(None, EntityStopped)]
  {
    var begun := ConnStep(FreshConn(true), Start);
    assert begun.ops == Ops(0, 1, 0) && begun.started && !begun.shuttingDown && begun.frames == [] && begun.trace == [];
    ConnectFails(begun);
    var failed := ConnStep(begun, ConnectDone(false));
    WaitOrGiveUp(failed, false);
    var waiting := ConnStep(failed, Return(false));
    assert waiting.ops == Ops(0, 0, 1) && waiting.frames == [] && waiting.trace == [Failed(None, SystemError)];
    var open := ConnStep(ConnStep(waiting, TimerDone(true)), ConnectDone(true));
    assert open.trace == [Failed(None, SystemError), Opened(0, 1)] && open.io == Handlers(1, {}, {}, {}) && open.started;
    var reading := ConnStep(open, HandlerStartIo(0, false));
    assert reading == BeginRead(open, 0);
    EndOfSession(reading);
  }

  /** The connector. Outstanding operations belong to the outside world and are only in `machine`; a handler is its
      number, and `ioStarted` collects the numbers of those whose is_io_started is true. */
  class TcpConnector<C> {
    const entity: NetEntityCommon<C>
    var shuttingDown: bool
    var haveEndpoints: bool
    var ioHandler: Option<nat>
    var nextHandler: nat
    var ioStarted: set<nat>
    ghost var machine: Conn

    ghost predicate Valid() reads this, entity {
      && machine.started == entity.started && machine.shuttingDown == shuttingDown
      && machine.resolved == haveEndpoints && machine.current == ioHandler
      && machine.io.next == nextHandler && machine.io.on == ioStarted && machine.frames == []
    }

    constructor (endpoints: bool)
      ensures Valid() && machine == FreshConn(endpoints) && fresh(entity)
    {
      entity := new NetEntityCommon();
      shuttingDown, haveEndpoints, ioHandler, nextHandler, ioStarted := false, endpoints, None, 0, {};
      machine := FreshConn(endpoints);
    }

    method Start(cbs: C) returns (ok: bool)
      requires Valid()
      modifies this, entity
      ensures Valid() && machine == ConnStep(old(machine), ConnEvent.Start) && (ok <==> !old(entity.started))
      ensures !ok ==> machine == old(machine) && entity.callbacks == old(entity.callbacks)
      ensures ok ==> && entity.started && entity.callbacks == Some(cbs) && !shuttingDown
                     && ioHandler == old(ioHandler) && ioStarted == old(ioStarted) && machine.trace == old(machine.trace)
      ensures ok && haveEndpoints ==>
                machine.ops == old(machine.ops).(connecting := old(machine.ops.connecting) + 1)
      ensures ok && !haveEndpoints ==>
                machine.ops == old(machine.ops).(resolving := old(machine.ops.resolving) + 1)
    {
      ok := entity.Start(cbs);
      machine := OnStart(machine);
      if ok {
        shuttingDown := false;
      }
    }

    method Stop() returns (ok: bool)
      requires Valid()
      modifies this, entity
      ensures Valid() && machine == StopConn(old(machine)) && (ok <==> old(entity.started))
      ensures entity.callbacks == old(entity.callbacks) && machine.ops == old(machine.ops)
      ensures !ok ==> machine == old(machine)
      ensures ok ==> && !entity.started && shuttingDown && ioHandler == None
                     && machine.trace == old(machine.trace) + [Failed(None, EntityStopped)]
                     && ioStarted == old(ioStarted) - (if old(ioHandler).Some? then {old(ioHandler).value} else {})
    {
      ok := Close();
      machine := StopConn(machine);
    }

    /** close(), without the error callback that stop() adds. */
    method Close() returns (ok: bool)
      requires Valid()
      modifies entity, `shuttingDown, `ioHandler, `ioStarted
      ensures (ok <==> old(entity.started)) && !entity.started && entity.callbacks == old(entity.callbacks)
      ensures !ok ==> shuttingDown == old(shuttingDown) && ioHandler == old(ioHandler) && ioStarted == old(ioStarted)
      ensures ok ==> shuttingDown && ioHandler == None
                     && ioStarted == old(ioStarted) - (if old(ioHandler).Some? then {old(ioHandler).value} else {})
    {
      ok := entity.Stop();
      if !ok {
        return; // stop already called
      }
      shuttingDown := true;
      if ioHandler.Some? {
        if ioHandler.value in ioStarted {
          ioStarted := ioStarted - {ioHandler.value};
        }
        ioHandler := None;
      }
    }

    method HandleResolve(err: bool, found: bool)
      requires Valid() && machine.ops.resolving > 0
      modifies this, entity
      ensures Valid() && entity.callbacks == old(entity.callbacks)
      ensures err ==> machine == ConnStep(ConnStep(old(machine), ResolveDone(false, found)), Return(false))
      ensures !err ==> machine == ConnStep(old(machine), ResolveDone(true, found))
      ensures ioHandler == old(ioHandler) && ioStarted == old(ioStarted) && machine.ops.resolving == old(machine.ops.resolving) - 1
      ensures err ==> && !entity.started && haveEndpoints == old(haveEndpoints)
                      && machine.trace == old(machine.trace) + [Failed(None, SystemError)]
                      && machine.ops.connecting == old(machine.ops.connecting)
      ensures !err ==> && entity.started == old(entity.started) && haveEndpoints == (old(haveEndpoints) || found)
                       && machine.trace == old(machine.trace)
                       && machine.ops.connecting == old(machine.ops.connecting) + 1
    {
      if err {
        ResolveFails(machine, found);
        machine := ConnStep(ConnStep(machine, ResolveDone(false, found)), Return(false));
        var _ := entity.Stop();
        return;
      }
      machine := OnResolved(machine, true, found);
      haveEndpoints := haveEndpoints || found;
    }

    /** `startTimer`: the wait before the next attempt is begun. */
    method HandleConnect(err: bool, timerThrows: bool) returns (startTimer: bool)
      requires Valid() && machine.ops.connecting > 0
      modifies this, entity
      ensures Valid() && entity.callbacks == old(entity.callbacks)
      ensures !err ==> machine == ConnStep(old(machine), ConnectDone(true))
      ensures err ==> var t := ConnStep(ConnStep(old(machine), ConnectDone(false)), Return(timerThrows));
        machine == if t.frames == [] then t else ConnStep(t, Return(false))
      ensures machine.ops.connecting == old(machine.ops.connecting) - 1 && ioStarted == old(ioStarted)
      ensures !err ==> && ioHandler == Some(old(nextHandler)) && nextHandler == old(nextHandler) + 1 && !startTimer
                       && machine.trace == old(machine.trace) + [Opened(old(nextHandler), 1)]
                       && entity.started == old(entity.started)
      ensures err ==> ioHandler == old(ioHandler) && nextHandler == old(nextHandler)
      ensures startTimer <==> err && old(entity.started) && !old(shuttingDown) && !timerThrows
      ensures machine.ops.waiting == old(machine.ops.waiting) + if startTimer then 1 else 0
      ensures err ==> var throws := old(entity.started) && !old(shuttingDown) && timerThrows;
        && entity.started == (old(entity.started) && !throws)
        && machine.trace == old(machine.trace) + [Failed(None, SystemError)] + (if throws then [Failed(None, SystemError)] else [])
    {
      startTimer := false;
      if err {
        ConnectFails(machine);
        machine := ConnStep(machine, ConnectDone(false));
        WaitOrGiveUp(machine, timerThrows);
        machine := ConnStep(machine, Return(timerThrows));
        if !entity.started || shuttingDown {
          return;
        }
        if timerThrows {
          TimerErrorReturns(machine);
          machine := ConnStep(machine, Return(false));
          var _ := entity.Stop();
          return;
        }
        return true;
      }
      machine := OnConnected(machine, true);
      ioHandler := Some(nextHandler);
      nextHandler := nextHandler + 1;
    }

    method HandleTimer(err: bool) returns (connect: bool)
      requires Valid() && machine.ops.waiting > 0
      modifies `machine
      ensures Valid() && machine == ConnStep(old(machine), TimerDone(!err))
      ensures connect <==> !err
      ensures machine.ops == old(machine.ops).(waiting := old(machine.ops.waiting) - 1,
                                               connecting := old(machine.ops.connecting) + if connect then 1 else 0)
      ensures connect <==> machine.links.attempts == old(machine.links.attempts) + 1
      ensures machine.trace == old(machine.trace)
    {
      machine := OnTimer(machine, !err);
      connect := !err;
    }

    method NotifyMe(h: nat, why: Reason)
      requires Valid()
      modifies this, entity
      ensures Valid() && machine == NotifyQuiet(old(machine), h, why) && entity.callbacks == old(entity.callbacks)
      ensures !entity.started && machine.ops == old(machine.ops)
      ensures ioHandler == if old(entity.started) then None else old(ioHandler)
      ensures ioStarted == old(ioStarted) - {h}
                - (if old(entity.started) && old(ioHandler).Some? then {old(ioHandler).value} else {})
      ensures machine.trace == old(machine.trace) + [Failed(Some(h), why), Closed(h, 0)]
                               + (if old(entity.started) then [Failed(None, EntityStopped)] else [])
    {
      NotifyStops(machine, h, why);
      machine := NotifyBegin(machine, h, why);
      CloseReturns(machine, h);
      ioStarted := ioStarted - {h};
      machine := ConnStep(machine, Return(false));
      machine := machine.(frames := []);
      var _ := Stop();
    }
  }
}
