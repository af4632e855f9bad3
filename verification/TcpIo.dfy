/** The TCP handler (include/net_ip/detail/tcp_io.hpp): write pump, read chain and one-time close together.

    Steps are the API calls, the posted tasks and the completion handlers. The owner's reaction to a notification
    always begins with `close` (tcp_acceptor.hpp:131, tcp_connector.hpp:228), so `Notify` includes it. The message
    handler is a step boundary: while it runs (`busy`) any API call may come first. */
module TcpHandler {
  import opened Bytes
  import opened OutQueue
  import opened IoState
  import opened WritePump
  import opened Framing
  import opened StreamReader

  datatype Tcp<!F> = Tcp(
    pump: Pump<()>,
    open: bool,                // the socket
    reader: Option<Reader<F>>, // since a successful start_io
    active: bool,              // a read is outstanding or the message handler is running
    // history
    starts: nat,               // successful set_io_started
    startFailures: nat,        // start_io that found no remote endpoint
    stopIos: nat,              // stop_io that returned true
    chains: nat,               // read chains begun
    ended: nat,                // read chains ended, by an error or by the message handler
    notes: nat,                // calls of the notifier
    closings: nat              // executions of shutdown and close on the socket
  )

  datatype TcpEvent<!F> =
    | StartIo(mode: Mode<F>, fs: F, endpointError: bool)
    | StopIo
    | Close
    | Send(buf: Buf)
    | Wire(k: nat)
    | Written(ok: bool)
    | Bytes(chunk: Buf)
    | ReadDone(ok: bool)
    | HandlerReturns(ok: bool)

  function FreshTcp<F>(): Tcp<F> {
    Tcp(FreshPump(), true, None, false, 0, 0, 0, 0, 0, 0, 0)
  }

  function CloseTcp<F>(s: Tcp<F>): Tcp<F> {
    if s.pump.io.started
    then s.(pump := Lower(s.pump), open := false, closings := s.closings + 1)
    else s
  }

  function Notify<F>(s: Tcp<F>): Tcp<F> {
    CloseTcp(s.(notes := s.notes + 1))
  }

  function EndChain<F>(s: Tcp<F>): Tcp<F> {
    Notify(s.(active := false, ended := s.ended + 1))
  }

  function TcpStart<F>(s: Tcp<F>, m: Mode<F>, fs: F, endpointError: bool): Tcp<F> {
    if s.pump.io.started then s
    else
      var t := s.(pump := Raise(s.pump), starts := s.starts + 1);
      if endpointError || !s.open // a closed socket has no remote endpoint
      then Notify(t.(startFailures := t.startFailures + 1))
      else t.(reader := Some(StartReader(m, fs)), active := true, chains := t.chains + 1)
  }

  function TcpStep<F>(s: Tcp<F>, ev: TcpEvent<F>): Tcp<F> {
    match ev
    case StartIo(m, fs, err) => TcpStart(s, m, fs, err)
    case StopIo => if s.pump.io.started then Notify(s.(stopIos := s.stopIos + 1)) else s
    case Close => CloseTcp(s)
    case Send(buf) => s.(pump := PumpStep(s.pump, RunSend(Element(buf, None))))
    case Wire(k) => s.(pump := PumpStep(s.pump, Transmit(k)))
    case Written(ok) => s.(pump := PumpStep(s.pump, WriteDone(ok)))
    case Bytes(chunk) =>
      if s.active && s.reader.Some? then s.(reader := Some(ReadStep(s.reader.value, ReadSome(chunk)))) else s
    case ReadDone(ok) =>
      if !s.active || s.reader.None? || s.reader.value.busy then s
      else if !ok then EndChain(s)
      else s.(reader := Some(ReadStep(s.reader.value, ReadOk)))
    case HandlerReturns(ok) =>
      if !s.active || s.reader.None? || !s.reader.value.busy then s
      else if !ok then EndChain(s)
      else s.(reader := Some(ReadStep(s.reader.value, HandlerTrue)))
  }

  function TcpRun<F>(s: Tcp<F>, evs: seq<TcpEvent<F>>): Tcp<F>
    decreases |evs|
  {
    if |evs| == 0 then s else TcpRun(TcpStep(s, evs[0]), evs[1..])
  }

  /** Exact accounting of starts, read chains, notifications and closings. */
  ghost predicate Accounts<F>(s: Tcp<F>) {
    && s.starts == s.closings + (if s.pump.io.started then 1 else 0)
    && s.starts == s.chains + s.startFailures
    && s.chains == s.ended + (if s.active then 1 else 0)
    && s.notes == s.startFailures + s.stopIos + s.ended
    && s.stopIos <= s.closings
    && (s.open <==> s.closings == 0)
    && (s.pump.io.started ==> s.open)
    && s.chains <= 1
    && (s.reader.Some? <==> s.chains == 1)
  }

  ghost predicate ReaderOk<F>(r: Option<Reader<F>>) {
    r.Some? && r.value.mode.Positive() ==> ReaderInv(r.value)
  }

  ghost predicate TcpInv<F>(s: Tcp<F>) {
    && Accounts(s)
    && PumpInv(s.pump)
    && ReaderOk(s.reader)
  }

  predicate PumpOnly<F>(ev: TcpEvent<F>) {
    ev.Send? || ev.Wire? || ev.Written?
  }

  function PumpPart<F>(ev: TcpEvent<F>): PumpEvent<()>
    requires PumpOnly(ev)
  {
    match ev
    case Send(buf) => RunSend(Element(buf, None))
    case Wire(k) => Transmit(k)
    case Written(ok) => WriteDone(ok)
  }

  lemma PumpOnlyStep<F>(s: Tcp<F>, ev: TcpEvent<F>)
    requires PumpOnly(ev)
    ensures TcpStep(s, ev) == s.(pump := PumpStep(s.pump, PumpPart(ev)))
    ensures TcpStep(s, ev).pump.io.started == s.pump.io.started
  {
    StepAccepts(s.pump, PumpPart(ev));
  }

  lemma AccountsKept<F>(s: Tcp<F>, ev: TcpEvent<F>)
    requires Accounts(s)
    ensures Accounts(TcpStep(s, ev))
  {
    if PumpOnly(ev) {
      PumpOnlyStep(s, ev);
    }
  }

  /** The remaining steps only move the started flag. */
  lemma FlagOnlyStep<F>(s: Tcp<F>, ev: TcpEvent<F>)
    requires !PumpOnly(ev)
    ensures var t := TcpStep(s, ev); t.pump == s.pump.(io := s.pump.io.(started := t.pump.io.started))
  {
    match ev {
      case StartIo(_, _, _) =>
      case StopIo =>
      case Close =>
      case Bytes(_) =>
      case ReadDone(_) =>
      case HandlerReturns(_) =>
    }
  }

  lemma TcpPumpStep<F>(s: Tcp<F>, ev: TcpEvent<F>)
    requires PumpInv(s.pump)
    ensures PumpInv(TcpStep(s, ev).pump)
  {
    if PumpOnly(ev) {
      PumpOnlyStep(s, ev);
      PumpStepInv(s.pump, PumpPart(ev));
    } else {
      FlagOnlyStep(s, ev);
      FlagKeeps(s.pump, TcpStep(s, ev).pump.io.started);
    }
  }

  /** Besides starting, a step leaves the reader alone or moves it by one reader step. */
  lemma ReaderMoves<F>(s: Tcp<F>, ev: TcpEvent<F>)
    ensures var t := TcpStep(s, ev);
      || t.reader == s.reader
      || (ev.StartIo? && t.reader == Some(StartReader(ev.mode, ev.fs)))
      || (s.reader.Some? && exists re :: t.reader == Some(ReadStep(s.reader.value, re)))
  {
    if PumpOnly(ev) {
      PumpOnlyStep(s, ev);
    }
  }

  lemma TcpReaderStep<F>(s: Tcp<F>, ev: TcpEvent<F>)
    requires ReaderOk(s.reader)
    ensures ReaderOk(TcpStep(s, ev).reader)
  {
    ReaderMoves(s, ev);
    var t := TcpStep(s, ev);
    if t.reader != s.reader {
      if ev.StartIo? && t.reader == Some(StartReader(ev.mode, ev.fs)) {
        if ev.mode.Positive() {
          StartInv(ev.mode, ev.fs);
        }
      } else {
        var re :| t.reader == Some(ReadStep(s.reader.value, re));
        if s.reader.value.mode.Positive() {
          ReadStepInv(s.reader.value, re);
        }
      }
    }
  }

  lemma {:induction false} TcpRunInv<F>(s: Tcp<F>, evs: seq<TcpEvent<F>>)
    requires TcpInv(s)
    ensures TcpInv(TcpRun(s, evs))
    decreases |evs|
  {
    if |evs| > 0 {
      AccountsKept(s, evs[0]);
      TcpPumpStep(s, evs[0]);
      TcpReaderStep(s, evs[0]);
      TcpRunInv(TcpStep(s, evs[0]), evs[1..]);
    }
  }

  lemma {:induction false} AccountsRun<F>(s: Tcp<F>, evs: seq<TcpEvent<F>>)
    requires Accounts(s)
    ensures Accounts(TcpRun(s, evs))
    decreases |evs|
  {
    if |evs| > 0 {
      AccountsKept(s, evs[0]);
      AccountsRun(TcpStep(s, evs[0]), evs[1..]);
    }
  }

  /** Every run keeps all three parts: accounts, write pump and reader. */
  lemma {:induction false} HandlerSafety<F>(evs: seq<TcpEvent<F>>)
    ensures TcpInv(TcpRun(FreshTcp<F>(), evs))
  {
    assert PumpInv(FreshPump<()>());
    TcpRunInv(FreshTcp<F>(), evs);
  }

  /** What the accounts say about chains, notifications and closings. */
  ghost predicate LifeAccounted<F>(s: Tcp<F>) {
    && s.chains <= 1
    && s.notes == s.startFailures + s.stopIos + s.ended
    && s.closings == s.starts - (if s.pump.io.started then 1 else 0)
    && (s.starts <= 1 ==>
        && s.closings <= 1 && s.stopIos <= 1 && s.notes <= 1 + s.stopIos
        && (s.chains == 1 && !s.active ==> s.notes == 1 + s.stopIos))
  }

  lemma AccountsSay<F>(s: Tcp<F>)
    requires Accounts(s)
    ensures LifeAccounted(s)
  {
  }

  /** Over all runs of a handler, however often it is started, stopped, closed and notified: at most one read chain
      ever runs; the notifier is called once per failed start, once per stop_io that returned true and once per chain
      that ended; and the socket is shut down once per start that was undone. */
  lemma {:induction false} EndOfLife<F>(evs: seq<TcpEvent<F>>)
    ensures LifeAccounted(TcpRun(FreshTcp<F>(), evs))
  {
    AccountsRun(FreshTcp<F>(), evs);
    AccountsSay(TcpRun(FreshTcp<F>(), evs));
  }

  /** A read chain that stop_io interrupts is reported twice: by stop_io and by the aborted read. */
  lemma StopIoNotifiesTwice<F>(m: Mode<F>, fs: F)
    ensures var s := TcpStep(TcpStep(TcpStep(FreshTcp<F>(), StartIo(m, fs, false)), StopIo), ReadDone(false));
      s.notes == 2 && s.closings == 1 && s.starts == 1
  {
  }

  // ----- the same history, counted from the events -----

  /** A read operation is outstanding; the message handler is running. */
  predicate Reading<F>(s: Tcp<F>) {
    s.active && s.reader.Some? && !s.reader.value.busy
  }

  predicate Handling<F>(s: Tcp<F>) {
    s.active && s.reader.Some? && s.reader.value.busy
  }

  datatype Tally = Tally(begun: nat, failed: nat, stopped: nat, ended: nat)

  /** What an event is, judged by the state in which it comes: a start that begins to read, one that finds no remote
      endpoint, a stop_io of a started handler, or a failed read or false message handler. */
  function TallyOf<F>(s: Tcp<F>, ev: TcpEvent<F>): Tally {
    match ev
    case StartIo(_, _, noEndpoint) =>
      if s.pump.io.started then Tally(0, 0, 0, 0)
      else if noEndpoint || !s.open then Tally(0, 1, 0, 0)
      else Tally(1, 0, 0, 0)
    case StopIo => Tally(0, 0, if s.pump.io.started then 1 else 0, 0)
    case ReadDone(ok) => Tally(0, 0, 0, if !ok && Reading(s) then 1 else 0)
    case HandlerReturns(ok) => Tally(0, 0, 0, if !ok && Handling(s) then 1 else 0)
    case _ => Tally(0, 0, 0, 0)
  }

  function Plus(a: Tally, b: Tally): Tally {
    Tally(a.begun + b.begun, a.failed + b.failed, a.stopped + b.stopped, a.ended + b.ended)
  }

  lemma PlusAssoc(a: Tally, b: Tally, c: Tally)
    ensures Plus(Plus(a, b), c) == Plus(a, Plus(b, c))
  {
  }

  function TallyRun<F>(s: Tcp<F>, evs: seq<TcpEvent<F>>): Tally
    decreases |evs|
  {
    if |evs| == 0 then Tally(0, 0, 0, 0) else Plus(TallyOf(s, evs[0]), TallyRun(TcpStep(s, evs[0]), evs[1..]))
  }

  function History<F>(s: Tcp<F>): Tally {
    Tally(s.chains, s.startFailures, s.stopIos, s.ended)
  }

  lemma TallyStep<F>(s: Tcp<F>, ev: TcpEvent<F>)
    ensures History(TcpStep(s, ev)) == Plus(History(s), TallyOf(s, ev))
  {
    match ev {
      case StartIo(_, _, _) =>
      case StopIo =>
      case Close =>
      case Bytes(_) =>
      case ReadDone(_) =>
      case HandlerReturns(_) =>
      case _ => PumpOnlyStep(s, ev);
    }
  }

  lemma {:induction false} TallyIsHistory<F>(s: Tcp<F>, evs: seq<TcpEvent<F>>)
    ensures History(TcpRun(s, evs)) == Plus(History(s), TallyRun(s, evs))
    decreases |evs|
  {
    if |evs| > 0 {
      var t := TcpStep(s, evs[0]);
      TallyStep(s, evs[0]);
      TallyIsHistory(t, evs[1..]);
      PlusAssoc(History(s), TallyOf(s, evs[0]), TallyRun(t, evs[1..]));
      assert TcpRun(s, evs) == TcpRun(t, evs[1..]);
    } else {
      assert Plus(History(s), Tally(0, 0, 0, 0)) == History(s);
    }
  }

  /** What a history of notified and ended chains means. */
  ghost predicate LifeCounted<F>(s: Tcp<F>, n: Tally) {
    && n.begun <= 1 && n.ended <= n.begun
    && s.notes == n.failed + n.stopped + n.ended
    && (s.active <==> n.begun == n.ended + 1)
    && (s.open <==> s.closings == 0) && s.closings + (if s.pump.io.started then 1 else 0) == n.begun + n.failed
  }

  lemma CountsSay<F>(s: Tcp<F>)
    requires Accounts(s)
    ensures LifeCounted(s, History(s))
  {
  }

  /** Counted from the events of any run of a new handler: at most one start begins to read; each failed start, each
      stop_io of a started handler and each failed read or false message handler makes one call of the notifier, and
      there are no others; and the handler reads exactly if it began and did not end. */
  lemma {:induction false} LifeFromEvents<F>(evs: seq<TcpEvent<F>>)
    ensures LifeCounted(TcpRun(FreshTcp<F>(), evs), TallyRun(FreshTcp<F>(), evs))
  {
    var first := FreshTcp<F>();
    AccountsRun(first, evs);
    CountsSay(TcpRun(first, evs));
    TallyIsHistory(first, evs);
    assert Plus(History(first), TallyRun(first, evs)) == TallyRun(first, evs);
  }

  /** A step that notifies leaves the handler stopped and its socket closed; one that ends the read chain notifies. */
  lemma NotifiedIsClosed<F>(s: Tcp<F>, ev: TcpEvent<F>)
    requires Accounts(s)
    ensures var t := TcpStep(s, ev);
      && (t.notes != s.notes ==> t.notes == s.notes + 1 && !t.pump.io.started && !t.open)
      && (s.active && !t.active ==> t.notes == s.notes + 1)
      && (TallyOf(s, ev).ended > 0 ==> s.active && !t.active && t.reader == s.reader)
  {
    if PumpOnly(ev) {
      PumpOnlyStep(s, ev);
    }
  }

  lemma ContinueReading<F>(s: Tcp<F>)
    requires s.active && s.reader.Some? && s.reader.value.busy && s.reader.value.numBytes <= |s.reader.value.vec|
    ensures TcpStep(s, HandlerReturns(true)) == s.(reader := Some(AfterHandler(s.reader.value)))
  {
  }

  lemma CompleteRead<F>(s: Tcp<F>)
    requires s.active && s.reader.Some? && Ready(s.reader.value)
    ensures TcpStep(s, ReadDone(true)) == s.(reader := Some(HandleRead(s.reader.value)))
  {
  }

  lemma ReceiveBytes<F>(s: Tcp<F>, chunk: Buf)
    requires s.active && s.reader.Some? && Takes(s.reader.value, chunk)
    ensures TcpStep(s, TcpEvent.Bytes(chunk)) == s.(reader := Some(Take(s.reader.value, chunk)))
  {
  }

  lemma SetupAccounts<F>(s: Tcp<F>, m: Mode<F>, fs: F, endpointError: bool)
    requires Accounts(s)
    ensures Accounts(TcpStart(s, m, fs, endpointError))
  {
    AccountsKept(s, TcpEvent.StartIo(m, fs, endpointError));
  }

  // ----- the class -----

  /** The read operation in progress, with what its completion handler carries. */
  datatype ReadOp<!F> =
    | NoOp
    | Read(start: nat, frame: (F, Buf) -> (F, nat), fs: F)
    | ReadUntil
    | InHandler(frame: (F, Buf) -> (F, nat), fs: F)
    | InHandlerUntil(numBytes: nat)

  /** std::vector::resize. */
  function Resize(v: Buf, n: nat): (r: Buf)
    ensures |r| == n && forall i :: 0 <= i < |v| && i < n ==> r[i] == v[i]
  {
    if n <= |v| then v[..n] else v + seq(n - |v|, _ => 0 as Byte)
  }

  class TcpIo<F> {
    const ioCommon: IoCommon<()>
    var socketOpen: bool
    var byteVec: Buf
    var readSize: nat
    var delimiter: Buf
    var op: ReadOp<F>
    var filled: nat // bytes that the pending async_read has stored
    ghost var machine: Tcp<F>

    ghost predicate Valid() reads this, ioCommon, ioCommon.outq {
      Linked() && Accounts(machine) && (machine.chains == 0 ==> byteVec == [])
    }

    /** The fields show the state of the machine. */
    ghost predicate Linked() reads this, ioCommon, ioCommon.outq {
      && machine.pump.io == ioCommon.State()
      && machine.open == socketOpen
      && (machine.active <==> !op.NoOp?)
      && (!op.NoOp? ==> machine.reader.Some? && ReaderMatches(machine.reader.value))
    }

    ghost predicate ReaderMatches(r: Reader<F>) reads this {
      match op
      case NoOp => true
      case Read(start, frame, fs) =>
        && r.mode == Framed(readSize, frame) && r.fs == fs && !r.busy
        && start == r.start <= filled <= |byteVec| == r.size && r.vec == byteVec[..filled]
      case ReadUntil => r.mode == Delimited(delimiter) && !r.busy && r.vec == byteVec
      case InHandler(frame, fs) =>
        r.mode == Framed(readSize, frame) && r.fs == fs && r.busy && r.vec == byteVec && r.numBytes == |byteVec|
      case InHandlerUntil(nb) =>
        r.mode == Delimited(delimiter) && r.busy && r.vec == byteVec && r.numBytes == nb <= |byteVec|
    }

    constructor ()
      ensures Valid() && machine == FreshTcp<F>() && fresh(ioCommon) && fresh(ioCommon.outq)
    {
      ioCommon := new IoCommon();
      socketOpen, byteVec, readSize, delimiter, op, filled := true, [], 0, [], NoOp, 0;
      machine := FreshTcp();
    }

    method Close()
      requires Linked()
      modifies `socketOpen, `machine, ioCommon
      ensures Linked() && machine == CloseTcp(old(machine))
      ensures !ioCommon.ioStarted && ioCommon.writeInProgress == old(ioCommon.writeInProgress)
      ensures socketOpen == (old(socketOpen) && !old(ioCommon.ioStarted))
    {
      var ok := ioCommon.Stop();
      machine := CloseTcp(machine);
      if !ok {
        return; // already stopped
      }
      socketOpen := false;
    }

    /** The notifier: the owner closes this handler first. */
    method NotifyOwner()
      requires Linked()
      modifies `socketOpen, `machine, ioCommon
      ensures Linked() && machine == Notify(old(machine)) && machine.notes == old(machine.notes) + 1
      ensures !ioCommon.ioStarted && ioCommon.writeInProgress == old(ioCommon.writeInProgress)
      ensures socketOpen == (old(socketOpen) && !old(ioCommon.ioStarted))
    {
      machine := machine.(notes := machine.notes + 1);
      Close();
    }

    method StartIo(headerSize: nat, frame: (F, Buf) -> (F, nat), fs: F, endpointError: bool) returns (ok: bool)
      requires Valid()
      modifies this, ioCommon
      ensures Valid() && machine == TcpStep(old(machine), TcpEvent.StartIo(Framed(headerSize, frame), fs, endpointError))
      ensures ok <==> machine.chains == old(machine.chains) + 1
      ensures ok <==> !old(ioCommon.ioStarted) && !endpointError && old(socketOpen)
      ensures ok ==> ioCommon.ioStarted && socketOpen && readSize == headerSize == |byteVec| && op == Read(0, frame, fs) && filled == 0
      ensures !ok && !old(ioCommon.ioStarted) ==> !ioCommon.ioStarted && !socketOpen && machine.notes == old(machine.notes) + 1
      ensures old(ioCommon.ioStarted) ==> machine == old(machine)
    {
      ok := StartIoSetup(endpointError, Framed(headerSize, frame), fs);
      if ok {
        readSize := headerSize;
        byteVec := Resize(byteVec, readSize);
        op, filled := Read(0, frame, fs), 0;
      }
    }

    method StartIoUntil(delim: Buf, fs: F, endpointError: bool) returns (ok: bool)
      requires Valid()
      modifies this, ioCommon
      ensures Valid() && machine == TcpStep(old(machine), TcpEvent.StartIo(Delimited(delim), fs, endpointError))
      ensures ok <==> machine.chains == old(machine.chains) + 1
      ensures ok <==> !old(ioCommon.ioStarted) && !endpointError && old(socketOpen)
      ensures ok ==> ioCommon.ioStarted && socketOpen && delimiter == delim && byteVec == [] && op == ReadUntil
      ensures !ok && !old(ioCommon.ioStarted) ==> !ioCommon.ioStarted && !socketOpen && machine.notes == old(machine.notes) + 1
      ensures old(ioCommon.ioStarted) ==> machine == old(machine)
    {
      ok := StartIoSetup(endpointError, Delimited(delim), fs);
      if ok {
        delimiter := delim;
        op := ReadUntil;
      }
    }

    method StartIoSetup(endpointError: bool, ghost m: Mode<F>, ghost fs: F) returns (ok: bool)
      requires Valid()
      modifies `socketOpen, `machine, ioCommon
      ensures machine == TcpStart(old(machine), m, fs, endpointError) && Accounts(machine)
      ensures machine.pump.io == ioCommon.State() && machine.open == socketOpen
      ensures ok <==> !old(ioCommon.ioStarted) && !endpointError && old(socketOpen)
      ensures ok ==> machine.chains == 1 && old(machine.chains) == 0 && machine.active && ioCommon.ioStarted && socketOpen
      ensures !ok ==> Valid() && machine.chains == old(machine.chains)
      ensures !ok && !old(ioCommon.ioStarted) ==> !ioCommon.ioStarted && !socketOpen && machine.notes == old(machine.notes) + 1
      ensures old(ioCommon.ioStarted) ==> machine == old(machine)
    {
      SetupAccounts(machine, m, fs, endpointError);
      var started := ioCommon.SetIoStarted();
      if !started {
        return false;
      }
      if endpointError || !socketOpen {
        machine := machine.(pump := Raise(machine.pump), starts := machine.starts + 1,
                            startFailures := machine.startFailures + 1);
        NotifyOwner();
        return false;
      }
      machine := TcpStart(machine, m, fs, endpointError);
      ok := true;
    }

    method StopIo() returns (ok: bool)
      requires Valid()
      modifies `socketOpen, `machine, ioCommon
      ensures Valid() && machine == TcpStep(old(machine), TcpEvent.StopIo)
      ensures ok <==> old(ioCommon.ioStarted)
      ensures ok ==> !ioCommon.ioStarted && !socketOpen && machine.notes == old(machine.notes) + 1 && machine.active == old(machine.active)
      ensures !ok ==> machine == old(machine)
    {
      AccountsKept(machine, TcpEvent.StopIo);
      if ioCommon.ioStarted {
        machine := machine.(stopIos := machine.stopIos + 1);
        NotifyOwner();
        return true;
      }
      ok := false;
    }

    /** The task posted by send; `start` is the buffer to give to async_write now. */
    method RunSend(buf: Buf) returns (start: Option<Buf>)
      requires Valid()
      modifies this, ioCommon, ioCommon.outq
      ensures Valid() && machine == TcpStep(old(machine), Send(buf))
      ensures start == if old(ioCommon.ioStarted) && !old(ioCommon.writeInProgress) then Some(buf) else None
      ensures ioCommon.outq.outputQueue == old(ioCommon.outq.outputQueue)
                + if old(ioCommon.ioStarted) && old(ioCommon.writeInProgress) then [Element(buf, None)] else []
      ensures Bufs(machine.pump.handed) == Bufs(old(machine.pump.handed)) + (if start.Some? then [start.value] else [])
    {
      AccountsKept(machine, Send(buf));
      var now := ioCommon.StartWriteSetup(buf, None);
      machine := TcpStep(machine, Send(buf));
      start := if now then Some(buf) else None;
    }

    method HandleWrite(err: bool) returns (start: Option<Buf>)
      requires Valid() && CanComplete(machine.pump, !err)
      modifies this, ioCommon, ioCommon.outq
      ensures Valid() && machine == TcpStep(old(machine), Written(!err))
      ensures err || !ioCommon.ioStarted ==> start == None && ioCommon.outq.outputQueue == old(ioCommon.outq.outputQueue)
                                             && ioCommon.writeInProgress == old(ioCommon.writeInProgress)
      ensures !err && ioCommon.ioStarted ==>
                && ioCommon.writeInProgress == start.Some? == (old(ioCommon.outq.outputQueue) != [])
                && (start.Some? ==> start.value == old(ioCommon.outq.outputQueue)[0].buf
                                    && ioCommon.outq.outputQueue == old(ioCommon.outq.outputQueue)[1..])
      ensures Bufs(machine.pump.handed) == Bufs(old(machine.pump.handed)) + (if start.Some? then [start.value] else [])
    {
      AccountsKept(machine, Written(!err));
      machine := TcpStep(machine, Written(!err));
      if err {
        return None; // reads report the error
      }
      var elem := ioCommon.GetNextElement();
      start := if elem.Some? then Some(elem.value.buf) else None;
    }

    /** The pending operation stores received bytes. */
    method ReceiveSome(chunk: Buf)
      requires Valid() && machine.active && Takes(machine.reader.value, chunk)
      modifies this
      ensures Valid() && machine == TcpStep(old(machine), TcpEvent.Bytes(chunk))
      ensures machine.reader.value.vec == old(machine.reader.value.vec) + chunk
      ensures machine.reader.value.consumed == old(machine.reader.value.consumed) + chunk
    {
      AccountsKept(machine, TcpEvent.Bytes(chunk));
      machine := TcpStep(machine, TcpEvent.Bytes(chunk));
      if op.Read? {
        byteVec := byteVec[..filled] + chunk + byteVec[filled + |chunk|..];
        filled := filled + |chunk|;
        assert byteVec[..filled] == old(byteVec[..filled]) + chunk;
      } else {
        byteVec := byteVec + chunk;
      }
    }

    /** handle_read up to the call of the message handler, which gets `msg`. */
    method HandleRead(err: bool) returns (msg: Option<Buf>)
      requires Valid() && op.Read? && (err || Ready(machine.reader.value))
      modifies this, ioCommon
      ensures Valid() && machine == TcpStep(old(machine), ReadDone(!err))
      ensures msg.Some? ==> machine.reader.value.delivered == old(machine.reader.value.delivered) + [msg.value]
      ensures msg.None? && !err ==> op.Read? && machine.reader.value.delivered == old(machine.reader.value.delivered)
      ensures err ==> msg == None && op.NoOp? && !ioCommon.ioStarted && !socketOpen && machine.notes == old(machine.notes) + 1
      ensures !err ==> var (fs', n) := old(op).frame(old(op).fs, old(byteVec)[old(op).start..]);
        if n == 0 then msg == Some(old(byteVec)) && byteVec == old(byteVec) && op == InHandler(old(op).frame, fs')
        else msg == None && |byteVec| == |old(byteVec)| + n && byteVec[..|old(byteVec)|] == old(byteVec)
             && op == Read(|old(byteVec)|, old(op).frame, fs')
    {
      AccountsKept(machine, ReadDone(!err));
      ghost var next := TcpStep(machine, ReadDone(!err));
      if err {
        machine, op := machine.(active := false, ended := machine.ended + 1), NoOp;
        NotifyOwner();
        return None;
      }
      assert byteVec[..filled] == byteVec;
      var (fs', nextReadSize) := op.frame(op.fs, byteVec[op.start..]);
      machine := next;
      if nextReadSize == 0 {
        msg, op := Some(byteVec), InHandler(op.frame, fs');
      } else {
        var oldSize := |byteVec|;
        byteVec := Resize(byteVec, oldSize + nextReadSize);
        assert byteVec[..oldSize] == old(byteVec);
        msg, op := None, Read(oldSize, op.frame, fs');
      }
    }

    /** handle_read_until up to the call of the message handler. */
    method HandleReadUntil(err: bool, numBytes: nat) returns (msg: Option<Buf>)
      requires Valid() && op.ReadUntil?
      requires !err ==> Ready(machine.reader.value) && numBytes == Find(delimiter, byteVec).value + |delimiter|
      modifies this, ioCommon
      ensures Valid() && machine == TcpStep(old(machine), ReadDone(!err))
      ensures err ==> msg == None && op.NoOp? && !ioCommon.ioStarted && !socketOpen && machine.notes == old(machine.notes) + 1
      ensures !err ==> msg == Some(byteVec[..numBytes]) && byteVec == old(byteVec) && op == InHandlerUntil(numBytes)
      ensures msg.Some? ==> machine.reader.value.delivered == old(machine.reader.value.delivered) + [msg.value]
    {
      AccountsKept(machine, ReadDone(!err));
      ghost var next := TcpStep(machine, ReadDone(!err));
      if err {
        machine, op := machine.(active := false, ended := machine.ended + 1), NoOp;
        NotifyOwner();
        return None;
      }
      machine := next;
      msg, op := Some(byteVec[..numBytes]), InHandlerUntil(numBytes);
    }

    /** The rest of both completion handlers, once the message handler has returned. */
    method AfterMsgHandler(ok: bool)
      requires Valid() && (op.InHandler? || op.InHandlerUntil?)
      modifies this, ioCommon
      ensures Valid() && machine == TcpStep(old(machine), HandlerReturns(ok))
      ensures !ok ==> op.NoOp? && !ioCommon.ioStarted && !socketOpen && machine.notes == old(machine.notes) + 1
      ensures ok ==> socketOpen == old(socketOpen) && machine.notes == old(machine.notes)
      ensures ok && old(op).InHandler? ==> op == Read(0, old(op).frame, old(op).fs) && |byteVec| == readSize && filled == 0
      ensures ok && old(op).InHandlerUntil? ==> op == ReadUntil && byteVec == old(byteVec)[old(op).numBytes..]
    {
      AccountsKept(machine, HandlerReturns(ok));
      if !ok {
        machine, op := machine.(active := false, ended := machine.ended + 1), NoOp;
        NotifyOwner();
        return;
      }
      ContinueReading(machine);
      machine := machine.(reader := Some(AfterHandler(machine.reader.value)));
      if op.InHandler? {
        byteVec := Resize(byteVec, readSize);
        op, filled := Read(0, op.frame, op.fs), 0;
      } else {
        byteVec := byteVec[op.numBytes..];
        op := ReadUntil;
      }
    }
  }
}
