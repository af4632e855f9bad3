/** The UDP entity and handler in one (include/net_ip/detail/udp_entity_io.hpp).

    Callbacks are step boundaries, with `frames` as in the acceptor, except that the state change callback's reaction
    to an open, a call of start_io, is part of the step. A successful start() begins a session; sessions are numbered
    from 1, and callbacks, operations and frames carry the number of the session they belong to. */
module UdpEntity {
  import opened Bytes
  import opened OutQueue
  import opened IoState
  import opened WritePump
  import opened NetEntity
  import opened Delivery

  datatype Frame =
    | StopAfterError(g: nat) // stop(), after an operation of session `g` failed
    | CloseAfterStopIo       // the state change callback of stop_io()
    | StoppedAfterStopIo     // the second error callback of stop()
    | MsgHandler(g: nat)     // handle_read, while the message handler runs

  /** Sending, with its history: where each accepted send was to go by the default in force when it was accepted, and
      where each buffer given to the socket went. */
  datatype Outgoing<+E> = Outgoing(
    writer: nat, // session that began the latest write
    promised: seq<(Buf, E)>,
    sentTo: seq<(Buf, E)>
  )

  datatype Udp<+E> = Udp(
    entity: bool,            // m_entity_common started
    pump: Pump<E>,
    open: bool,
    deflt: E,                // m_default_dest_endp
    receives: multiset<nat>, // outstanding async_receive_from, by the session that began them
    out: Outgoing<E>,
    frames: seq<Frame>,      // top first
    // history
    gen: nat,                // successful starts of the entity
    reentered: bool,         // a start succeeded while stop_io still owed its close callback
    trace: seq<Callback>
  )

  datatype UdpEvent<+E> =
    | Start(openOk: bool, dest: Option<E>, receiving: bool)  // with the start_io of the open callback
    | Stop
    | StopIo
    | Send(buf: Buf, endp: Option<E>)
    | Written(ok: bool)
    | Received(g: nat, ok: bool)  // completion of a receive begun in session `g`
    | Return(ok: bool)

  function FreshUdp<E>(deflt: E): Udp<E> {
    Udp(false, FreshPump(), false, deflt, multiset{}, Outgoing(0, [], []), [], 0, false, [])
  }

  function Emit<E>(s: Udp<E>, c: Callback): Udp<E> {
    s.(trace := s.trace + [c])
  }

  function Fail<E>(s: Udp<E>, why: Reason, fs: seq<Frame>): Udp<E> {
    Emit(s, Failed(None, why)).(frames := fs + s.frames)
  }

  function StopIoThen<E>(s: Udp<E>, fs: seq<Frame>): Udp<E>
    requires s.pump.io.started
  {
    Fail(s.(pump := Lower(s.pump), open := false), HandlerStopped, [CloseAfterStopIo] + fs)
  }

  function StopUdp<E>(s: Udp<E>): Udp<E> {
    if !s.entity then s
    else
      var t := s.(entity := false);
      if t.pump.io.started then StopIoThen(t, [StoppedAfterStopIo]) else Fail(t, EntityStopped, [])
  }

  function BeginIo<E>(s: Udp<E>, dest: Option<E>, receiving: bool): Udp<E> {
    if s.pump.io.started then s
    else
      s.(pump := Raise(s.pump), deflt := if dest.Some? then dest.value else s.deflt,
         receives := s.receives + if receiving then multiset{s.gen} else multiset{})
  }

  /** The entity gets past its gate and stores the callbacks. */
  function Begin<E>(s: Udp<E>): Udp<E> {
    s.(entity := true, gen := s.gen + 1, reentered := s.reentered || CloseAfterStopIo in s.frames)
  }

  function OnStart<E>(s: Udp<E>, openOk: bool, dest: Option<E>, receiving: bool): Udp<E> {
    if s.entity then s
    else
      var t := Begin(s);
      if openOk then BeginIo(Emit(t.(open := true), Opened(t.gen, 1)), dest, receiving)
      else Fail(t, SystemError, [StopAfterError(t.gen)])
  }

  function Destination<E>(e: Element<E>, deflt: E): (Buf, E) {
    (e.buf, if e.endp.Some? then e.endp.value else deflt)
  }

  /** Record where the buffer newly given to the socket by a pump step goes, if there is one. */
  function WithSent<E>(s: Udp<E>, p: Pump<E>): Udp<E> {
    var k := |s.pump.handed|;
    if |p.handed| > k
    then s.(pump := p, out := s.out.(writer := s.gen, sentTo := s.out.sentTo + [Destination(p.handed[k], s.deflt)]))
    else s.(pump := p)
  }

  /** The posted task of either send: a write started at once goes to the given or the default endpoint. */
  function OnSend<E>(s: Udp<E>, e: Element<E>): Udp<E> {
    var t := WithSent(s, PumpSend(s.pump, e));
    if s.pump.io.started then t.(out := t.out.(promised := t.out.promised + [Destination(e, s.deflt)])) else t
  }

  /** The write that is outstanding has failed. */
  function WriteFailed<E>(s: Udp<E>): Udp<E>
    requires |s.pump.inFlight| > 0
  {
    s.(pump := PumpDone(s.pump, false))
  }

  /** handle_write: a datagram is sent as a whole or not at all. */
  function OnWritten<E>(s: Udp<E>, ok: bool): Udp<E>
    requires |s.pump.inFlight| > 0 && s.pump.sent == 0
  {
    if ok then
      var p := PumpTransmit(s.pump, |s.pump.inFlight[0].buf|);
      WithSent(s, PumpDone(p, true))
    else Fail(WriteFailed(s), SystemError, [StopAfterError(s.out.writer)])
  }

  function OnReturn<E>(s: Udp<E>, ok: bool): Udp<E>
    requires |s.frames| > 0
  {
    var t := s.(frames := s.frames[1..]);
    match s.frames[0]
    case StopAfterError(_) => StopUdp(t)
    case CloseAfterStopIo => Emit(t, Closed(t.gen, 0))
    case StoppedAfterStopIo => Fail(t, EntityStopped, [])
    case MsgHandler(g) => // start_read uses the socket there is now, whoever opened it
      if ok then t.(receives := t.receives + multiset{t.gen}) else Fail(t, MessageHandlerTerminated, [StopAfterError(g)])
  }

  function OnReceived<E>(s: Udp<E>, g: nat, ok: bool): Udp<E> {
    var t := s.(receives := s.receives - multiset{g});
    if ok then t.(frames := [MsgHandler(g)] + t.frames) else Fail(t, SystemError, [StopAfterError(g)])
  }

  function UdpStep<E>(s: Udp<E>, ev: UdpEvent<E>): Udp<E> {
    match ev
    case Start(openOk, dest, receiving) => OnStart(s, openOk, dest, receiving)
    case Stop => StopUdp(s)
    case StopIo => if s.pump.io.started then StopIoThen(s, []) else s
    case Send(buf, endp) => OnSend(s, Element(buf, endp))
    case Written(ok) => if |s.pump.inFlight| > 0 && s.pump.sent == 0 then OnWritten(s, ok) else s
    case Received(g, ok) => if g in s.receives then OnReceived(s, g, ok) else s
    case Return(ok) => if |s.frames| > 0 then OnReturn(s, ok) else s
  }

  function UdpRun<E>(s: Udp<E>, evs: seq<UdpEvent<E>>): Udp<E>
    decreases |evs|
  {
    if |evs| == 0 then s else UdpRun(UdpStep(s, evs[0]), evs[1..])
  }

  // ----- lifecycle -----

  /** Close callbacks that stop_io still owes. */
  function Owed(fs: seq<Frame>): nat {
    if |fs| == 0 then 0 else (if fs[0].CloseAfterStopIo? then 1 else 0) + Owed(fs[1..])
  }

  ghost predicate LifeInv<E>(s: Udp<E>) {
    && (s.pump.io.started ==> s.entity)
    && (Owed(s.frames) > 0 <==> CloseAfterStopIo in s.frames)
    && (if !s.reentered then
          && Owed(s.frames) + (if s.pump.io.started then 1 else 0) <= 1
          && (if s.pump.io.started || Owed(s.frames) > 0 then SideOf(s.trace) == Up(s.gen)
              else SideOf(s.trace).Shut? && SideOf(s.trace).last <= s.gen)
        else
          || SideOf(s.trace) == Broken
          || (SideOf(s.trace).Up? && SideOf(s.trace).g < s.gen && Owed(s.frames) > 0 && !s.pump.io.started))
  }

  lemma OwedPush(f: Frame, fs: seq<Frame>)
    ensures Owed([f] + fs) == Owed(fs) + (if f.CloseAfterStopIo? then 1 else 0)
  {
    assert ([f] + fs)[1..] == fs;
  }

  /** An error callback, with any continuation that owes no close callback. */
  lemma FailLife<E>(s: Udp<E>, why: Reason, fs: seq<Frame>)
    requires LifeInv(s) && |fs| <= 1 && CloseAfterStopIo !in fs
    ensures LifeInv(Fail(s, why, fs))
  {
    SideEmit(s.trace, Failed(None, why));
    if |fs| == 1 {
      assert fs == [fs[0]] && fs[0] in fs;
      OwedPush(fs[0], s.frames);
    } else {
      assert fs + s.frames == s.frames;
    }
  }

  lemma StopIoLife<E>(s: Udp<E>, entity: bool, fs: seq<Frame>)
    requires LifeInv(s) && s.pump.io.started && |fs| <= 1 && CloseAfterStopIo !in fs
    ensures LifeInv(StopIoThen(s.(entity := entity), fs))
  {
    SideEmit(s.trace, Failed(None, HandlerStopped));
    assert [CloseAfterStopIo] + fs + s.frames == [CloseAfterStopIo] + (fs + s.frames);
    OwedPush(CloseAfterStopIo, fs + s.frames);
    if |fs| == 1 {
      assert fs == [fs[0]] && fs[0] in fs;
      OwedPush(fs[0], s.frames);
    } else {
      assert fs + s.frames == s.frames;
    }
  }

  lemma StopLife<E>(s: Udp<E>)
    requires LifeInv(s)
    ensures LifeInv(StopUdp(s))
  {
    if s.entity {
      if s.pump.io.started {
        StopIoLife(s, false, [StoppedAfterStopIo]);
      } else {
        FailLife(s.(entity := false), EntityStopped, []);
      }
    }
  }

  lemma OpenedLife<E>(s: Udp<E>, dest: Option<E>, receiving: bool)
    requires LifeInv(s) && !s.entity
    ensures LifeInv(OnStart(s, true, dest, receiving))
  {
    SideEmit(s.trace, Opened(s.gen + 1, 1));
  }

  lemma OpenFailedLife<E>(s: Udp<E>, dest: Option<E>, receiving: bool)
    requires LifeInv(s) && !s.entity
    ensures LifeInv(OnStart(s, false, dest, receiving))
  {
    SideEmit(s.trace, Failed(None, SystemError));
    OwedPush(StopAfterError(s.gen + 1), s.frames);
  }

  lemma OwedIffIn(fs: seq<Frame>)
    ensures Owed(fs) > 0 <==> CloseAfterStopIo in fs
  {
  }

  lemma ReturnLife<E>(s: Udp<E>, ok: bool)
    requires LifeInv(s) && |s.frames| > 0
    ensures LifeInv(OnReturn(s, ok))
  {
    var t := s.(frames := s.frames[1..]);
    assert s.frames == [s.frames[0]] + t.frames;
    OwedPush(s.frames[0], t.frames);
    OwedIffIn(t.frames);
    match s.frames[0] {
      case StopAfterError(_) => StopLife(t);
      case CloseAfterStopIo => SideEmit(s.trace, Closed(s.gen, 0));
      case StoppedAfterStopIo => FailLife(t, EntityStopped, []);
      case MsgHandler(g) => FailLife(t, MessageHandlerTerminated, [StopAfterError(g)]);
    }
  }

  lemma SendLife<E>(s: Udp<E>, e: Element<E>)
    requires LifeInv(s)
    ensures LifeInv(OnSend(s, e))
  {
    assert PumpSend(s.pump, e).io.started == s.pump.io.started;
  }

  lemma WrittenLife<E>(s: Udp<E>, ok: bool)
    requires LifeInv(s) && |s.pump.inFlight| > 0 && s.pump.sent == 0
    ensures LifeInv(OnWritten(s, ok))
  {
    if ok {
      assert OnWritten(s, true).pump.io.started == s.pump.io.started;
    } else {
      FailLife(WriteFailed(s), SystemError, [StopAfterError(s.out.writer)]);
    }
  }

  lemma LifeStep<E>(s: Udp<E>, ev: UdpEvent<E>)
    requires LifeInv(s)
    ensures LifeInv(UdpStep(s, ev))
  {
    match ev {
      case Start(openOk, dest, receiving) =>
        if !s.entity {
          if openOk {
            OpenedLife(s, dest, receiving);
          } else {
            OpenFailedLife(s, dest, receiving);
          }
        }
      case Stop => StopLife(s);
      case StopIo =>
        if s.pump.io.started {
          StopIoLife(s, s.entity, []);
        }
      case Send(buf, endp) => SendLife(s, Element(buf, endp));
      case Written(ok) =>
        if |s.pump.inFlight| > 0 && s.pump.sent == 0 {
          WrittenLife(s, ok);
        }
      case Received(g, ok) =>
        if g in s.receives {
          FailLife(s.(receives := s.receives - multiset{g}), SystemError, [StopAfterError(g)]);
          OwedPush(MsgHandler(g), s.frames);
        }
      case Return(ok) =>
        if |s.frames| > 0 {
          ReturnLife(s, ok);
        }
    }
  }

  lemma {:induction false} LifeRun<E>(s: Udp<E>, evs: seq<UdpEvent<E>>)
    requires LifeInv(s)
    ensures LifeInv(UdpRun(s, evs))
    decreases |evs|
  {
    if |evs| > 0 {
      LifeStep(s, evs[0]);
      LifeRun(UdpStep(s, evs[0]), evs[1..]);
    }
  }

  /** Over every run of starts, stops, errors, stale aborted receives and restarts: IO started implies entity started;
      and, between callbacks, open and close callbacks have taken turns, each close going to the callback of the start
      that opened, exactly if no start succeeded inside the error callback of a stop_io that still owed its close. */
  lemma {:induction false} UdpLifecycleIff<E>(deflt: E, evs: seq<UdpEvent<E>>)
    ensures var s := UdpRun(FreshUdp(deflt), evs);
      && (s.pump.io.started ==> s.entity)
      && (!s.reentered ==> SideOf(s.trace) != Broken)
      && (s.frames == [] ==> (SideOf(s.trace) != Broken <==> !s.reentered))
  {
    assert SideOf([]) == Shut(0);
    LifeRun(FreshUdp(deflt), evs);
  }

  /** So in such runs the promises of every future pair are set at most once, start first. */
  lemma {:induction false} UdpPromises<E>(deflt: E, evs: seq<UdpEvent<E>>, g: nat)
    requires !UdpRun(FreshUdp(deflt), evs).reentered
    ensures var p := Fed(UdpRun(FreshUdp(deflt), evs).trace, g); !p.threw && (p.stopSet ==> p.startSet)
  {
    UdpLifecycleIff(deflt, evs);
    PromisesSetOnce(UdpRun(FreshUdp(deflt), evs).trace, g);
  }

  /** The exception is real: restarting inside that error callback delivers open, open, close. */
  lemma RestartInsideStopIo()
    ensures var up := UdpStep(FreshUdp(0), Start(true, None, true));
      var s := UdpStep(UdpStep(up, UdpEvent.Stop), Start(true, None, true));
      s.reentered && s.trace == [Opened(1, 1), Failed(None, HandlerStopped), Opened(2, 1)]
  {
  }

  // ----- errors of earlier sessions -----

  lemma SentFrames<E>(s: Udp<E>, e: Element<E>)
    ensures var t := OnSend(s, e); t.entity == s.entity && t.gen == s.gen && t.frames == s.frames && t.receives == s.receives
  {
  }

  lemma WrittenFrames<E>(s: Udp<E>, ok: bool)
    requires |s.pump.inFlight| > 0 && s.pump.sent == 0
    ensures OnWritten(s, ok).entity == s.entity && OnWritten(s, ok).gen == s.gen && OnWritten(s, ok).receives == s.receives
    ensures OnWritten(s, ok).frames == (if ok then [] else [StopAfterError(s.out.writer)]) + s.frames
  {
    assert [] + s.frames == s.frames;
  }

  lemma GenGrows<E>(s: Udp<E>, ev: UdpEvent<E>)
    ensures s.gen <= UdpStep(s, ev).gen
    ensures UdpStep(s, ev).gen != s.gen ==> ev.Start? && !s.entity
  {
    match ev {
      case Send(buf, endp) => SentFrames(s, Element(buf, endp));
      case Written(ok) =>
        if |s.pump.inFlight| > 0 && s.pump.sent == 0 {
          WrittenFrames(s, ok);
        }
      case _ =>
    }
  }

  lemma {:induction false} GenGrowsRun<E>(s: Udp<E>, evs: seq<UdpEvent<E>>)
    ensures s.gen <= UdpRun(s, evs).gen
    decreases |evs|
  {
    if |evs| > 0 {
      GenGrows(s, evs[0]);
      GenGrowsRun(UdpStep(s, evs[0]), evs[1..]);
    }
  }

  /** A frame that stops the entity when it returns, or may lead to that. */
  predicate Blames(f: Frame) {
    f.StopAfterError? || f.MsgHandler?
  }

  /** Whatever is outstanding belongs to a session from number `lo` to the present one. */
  ghost predicate Since<E>(s: Udp<E>, lo: nat) {
    && lo <= s.gen && s.pump.sent == 0
    && (forall g :: g in s.receives ==> lo <= g <= s.gen)
    && (s.pump.inFlight != [] ==> lo <= s.out.writer <= s.gen)
    && (forall f :: f in s.frames && Blames(f) ==> lo <= f.g <= s.gen)
  }

  lemma SincePush<E>(s: Udp<E>, f: Frame, lo: nat)
    requires Since(s, lo) && (Blames(f) ==> lo <= f.g <= s.gen)
    ensures Since(s.(frames := [f] + s.frames), lo)
  {
    var t := s.(frames := [f] + s.frames);
    assert forall h :: h in t.frames <==> h == f || h in s.frames;
  }

  lemma SinceStop<E>(s: Udp<E>, lo: nat)
    requires Since(s, lo)
    ensures Since(StopUdp(s), lo)
  {
    var t := StopUdp(s);
    assert forall f :: f in t.frames && Blames(f) ==> f in s.frames;
  }

  lemma SinceStopIo<E>(s: Udp<E>, lo: nat)
    requires Since(s, lo) && s.pump.io.started
    ensures Since(StopIoThen(s, []), lo)
  {
    var t := StopIoThen(s, []);
    assert forall f :: f in t.frames && Blames(f) ==> f in s.frames;
  }

  lemma SincePop<E>(s: Udp<E>, lo: nat)
    requires Since(s, lo) && |s.frames| > 0
    ensures Since(s.(frames := s.frames[1..]), lo)
    ensures Blames(s.frames[0]) ==> lo <= s.frames[0].g <= s.gen
  {
    assert forall f :: f in s.frames[1..] ==> f in s.frames;
    assert s.frames[0] in s.frames;
  }

  /** The return of a frame that pushes none and stops nothing. */
  lemma QuietReturn<E>(s: Udp<E>, ok: bool)
    requires |s.frames| > 0 && !s.frames[0].StopAfterError? && (s.frames[0].MsgHandler? ==> ok)
    ensures var t := OnReturn(s, ok);
      && t.frames == s.frames[1..] && t.gen == s.gen && t.pump == s.pump && t.out == s.out && t.deflt == s.deflt
      && t.receives == (if s.frames[0].MsgHandler? then s.receives + multiset{s.gen} else s.receives)
  {
    assert [] + s.frames[1..] == s.frames[1..];
  }

  lemma SinceReturn<E>(s: Udp<E>, ok: bool, lo: nat)
    requires Since(s, lo) && |s.frames| > 0
    ensures Since(OnReturn(s, ok), lo)
  {
    var t := s.(frames := s.frames[1..]);
    SincePop(s, lo);
    if s.frames[0].StopAfterError? {
      SinceStop(t, lo);
    } else if s.frames[0].MsgHandler? && !ok {
      SincePush(Emit(t, Failed(None, MessageHandlerTerminated)), StopAfterError(s.frames[0].g), lo);
    } else {
      QuietReturn(s, ok);
    }
  }

  lemma SinceSend<E>(s: Udp<E>, e: Element<E>, lo: nat)
    requires Since(s, lo)
    ensures Since(OnSend(s, e), lo)
  {
    SentFrames(s, e);
  }

  lemma SinceWritten<E>(s: Udp<E>, ok: bool, lo: nat)
    requires Since(s, lo) && |s.pump.inFlight| > 0
    ensures Since(OnWritten(s, ok), lo)
  {
    if !ok {
      SincePush(s, StopAfterError(s.out.writer), lo);
    }
  }

  lemma SinceOpened<E>(s: Udp<E>, dest: Option<E>, receiving: bool, lo: nat)
    requires Since(s, lo)
    ensures Since(BeginIo(s, dest, receiving), lo)
  {
  }

  lemma SinceBegun<E>(s: Udp<E>, lo: nat)
    requires Since(s, lo)
    ensures Since(Begin(s), lo)
  {
  }

  lemma SinceStart<E>(s: Udp<E>, openOk: bool, dest: Option<E>, receiving: bool, lo: nat)
    requires Since(s, lo) && !s.entity
    ensures Since(OnStart(s, openOk, dest, receiving), lo)
  {
    var t := Begin(s);
    SinceBegun(s, lo);
    if openOk {
      SinceOpened(Emit(t.(open := true), Opened(t.gen, 1)), dest, receiving, lo);
    } else {
      SincePush(Emit(t, Failed(None, SystemError)), StopAfterError(t.gen), lo);
    }
  }

  lemma SinceReceived<E>(s: Udp<E>, g: nat, ok: bool, lo: nat)
    requires Since(s, lo) && g in s.receives
    ensures Since(OnReceived(s, g, ok), lo)
  {
    SincePush(s, if ok then MsgHandler(g) else StopAfterError(g), lo);
  }

  lemma SinceStep<E>(s: Udp<E>, ev: UdpEvent<E>, lo: nat)
    requires Since(s, lo)
    ensures Since(UdpStep(s, ev), lo)
  {
    match ev {
      case Start(openOk, dest, receiving) =>
        if !s.entity {
          SinceStart(s, openOk, dest, receiving, lo);
        }
      case Stop => SinceStop(s, lo);
      case StopIo =>
        if s.pump.io.started {
          SinceStopIo(s, lo);
        }
      case Send(buf, endp) => SinceSend(s, Element(buf, endp), lo);
      case Written(ok) =>
        if |s.pump.inFlight| > 0 {
          SinceWritten(s, ok, lo);
        }
      case Received(g, ok) =>
        if g in s.receives {
          SinceReceived(s, g, ok, lo);
        }
      case Return(ok) =>
        if |s.frames| > 0 {
          SinceReturn(s, ok, lo);
        }
    }
  }

  lemma {:induction false} SinceRun<E>(s: Udp<E>, evs: seq<UdpEvent<E>>, lo: nat)
    requires Since(s, lo)
    ensures Since(UdpRun(s, evs), lo)
    decreases |evs|
  {
    if |evs| > 0 {
      SinceStep(s, evs[0], lo);
      SinceRun(UdpStep(s, evs[0]), evs[1..], lo);
    }
  }

  /** The step stops the running session because an operation of an earlier one failed. */
  predicate Cuts<E>(s: Udp<E>, ev: UdpEvent<E>) {
    ev.Return? && |s.frames| > 0 && s.frames[0].StopAfterError? && s.frames[0].g < s.gen && s.entity
  }

  predicate CutShort<E>(s: Udp<E>, evs: seq<UdpEvent<E>>)
    decreases |evs|
  {
    |evs| > 0 && (Cuts(s, evs[0]) || CutShort(UdpStep(s, evs[0]), evs[1..]))
  }

  /** Nothing that could fail is left: no receive and no write is outstanding, and the caller is not inside a message
      handler or the error callback of a failed operation. */
  ghost predicate Clean<E>(s: Udp<E>) {
    s.receives == multiset{} && s.pump.inFlight == [] && forall f :: f in s.frames ==> !Blames(f)
  }

  lemma {:induction false} OwnRun<E>(s: Udp<E>, evs: seq<UdpEvent<E>>)
    requires Since(s, s.gen) && UdpRun(s, evs).gen == s.gen
    ensures !CutShort(s, evs)
    decreases |evs|
  {
    if |evs| > 0 {
      var t := UdpStep(s, evs[0]);
      GenGrows(s, evs[0]);
      GenGrowsRun(t, evs[1..]);
      SinceStep(s, evs[0], s.gen);
      assert |s.frames| > 0 ==> s.frames[0] in s.frames;
      OwnRun(t, evs[1..]);
    }
  }

  /** A run that cuts the session short, with one more step before it. */
  lemma CutLater<E>(s: Udp<E>, ev: UdpEvent<E>, rest: seq<UdpEvent<E>>) returns (evs: seq<UdpEvent<E>>)
    requires !ev.Start? && UdpRun(UdpStep(s, ev), rest).gen == UdpStep(s, ev).gen && CutShort(UdpStep(s, ev), rest)
    ensures UdpRun(s, evs).gen == s.gen && CutShort(s, evs)
  {
    evs := [ev] + rest;
    assert evs[1..] == rest;
    GenGrows(s, ev);
  }

  lemma CutNow<E>(s: Udp<E>, ok: bool) returns (evs: seq<UdpEvent<E>>)
    requires Cuts(s, Return(ok))
    ensures UdpRun(s, evs).gen == s.gen && CutShort(s, evs)
  {
    evs := [Return(ok)];
    assert UdpRun(s, evs) == UdpRun(UdpStep(s, Return(ok)), []) by {
      assert evs[1..] == [];
    }
    GenGrows(s, Return(ok));
  }

  /** A failure that puts the session's stop on top, and the return of its error callback. */
  lemma TwoSteps<E>(s: Udp<E>, ev: UdpEvent<E>) returns (evs: seq<UdpEvent<E>>)
    requires !ev.Start? && Cuts(UdpStep(s, ev), Return(true))
    ensures UdpRun(s, evs).gen == s.gen && CutShort(s, evs)
  {
    var rest := CutNow(UdpStep(s, ev), true);
    evs := CutLater(s, ev, rest);
  }

  /** The return of a message handler with false, and of a callback that leads to nothing. */
  lemma ReturnFalse<E>(s: Udp<E>)
    requires |s.frames| > 0 && !s.frames[0].StopAfterError?
    ensures var t := UdpStep(s, Return(false));
      && t.entity == s.entity && t.gen == s.gen
      && t.frames == (if s.frames[0].MsgHandler? then [StopAfterError(s.frames[0].g)] else []) + s.frames[1..]
  {
    assert [] + s.frames[1..] == s.frames[1..];
  }

  lemma RestBlames(fs: seq<Frame>, rest: seq<Frame>)
    requires |fs| > 0 && !Blames(fs[0]) && rest == [] + fs[1..]
    ensures (exists f :: f in fs && Blames(f)) ==> exists f :: f in rest && Blames(f)
    ensures forall f :: f in rest ==> f in fs
  {
    assert rest == fs[1..] && fs == [fs[0]] + rest;
    if f :| f in fs && Blames(f) {
      assert f in rest;
    }
  }

  /** Letting all callbacks return, message handlers with false, gets to a frame that stops the session. */
  lemma {:induction false} FramesCut<E>(s: Udp<E>) returns (evs: seq<UdpEvent<E>>)
    requires s.entity && (exists f :: f in s.frames && Blames(f))
    requires forall f :: f in s.frames && Blames(f) ==> f.g < s.gen
    ensures UdpRun(s, evs).gen == s.gen && CutShort(s, evs)
    decreases |s.frames|
  {
    var top, t := s.frames[0], UdpStep(s, Return(false));
    assert s.frames == [top] + s.frames[1..] && top in s.frames;
    if !top.StopAfterError? {
      ReturnFalse(s);
    }
    if top.StopAfterError? {
      evs := CutNow(s, false);
    } else if top.MsgHandler? {
      evs := TwoSteps(s, Return(false));
    } else {
      RestBlames(s.frames, t.frames);
      var rest := FramesCut(t);
      evs := CutLater(s, Return(false), rest);
    }
  }

  /** What is left over from an earlier session can end this one. */
  lemma LeftoverCuts<E>(s: Udp<E>, u: Udp<E>) returns (evs: seq<UdpEvent<E>>)
    requires Since(s, 0) && !Clean(s)
    requires u.entity && u.gen == s.gen + 1 && s.receives <= u.receives && u.frames == s.frames
    requires u.pump.inFlight == s.pump.inFlight && u.pump.sent == 0 && u.out.writer == s.out.writer
    ensures UdpRun(u, evs).gen == u.gen && CutShort(u, evs)
  {
    if s.receives != multiset{} {
      var g :| g in s.receives;
      evs := TwoSteps(u, Received(g, false));
    } else if s.pump.inFlight != [] {
      evs := TwoSteps(u, Written(false));
    } else {
      evs := FramesCut(u);
    }
  }

  /** The exact condition for a session to be safe from its predecessors, which the caller of start() can check: in
      whatever run follows, until the next start, the session is never stopped because an operation of an earlier
      session failed, exactly if nothing that could fail was left over when it was started. */
  lemma {:induction false} SafeFromEarlierIff<E>(deflt: E, before: seq<UdpEvent<E>>, dest: Option<E>, receiving: bool)
    requires !UdpRun(FreshUdp(deflt), before).entity
    ensures var s := UdpRun(FreshUdp(deflt), before);
      var u := UdpStep(s, Start(true, dest, receiving));
      (forall evs :: UdpRun(u, evs).gen == u.gen ==> !CutShort(u, evs)) <==> Clean(s)
  {
    var s := UdpRun(FreshUdp(deflt), before);
    var u := UdpStep(s, Start(true, dest, receiving));
    SinceRun(FreshUdp(deflt), before, 0);
    if Clean(s) {
      forall evs | UdpRun(u, evs).gen == u.gen
        ensures !CutShort(u, evs)
      {
        OwnRun(u, evs);
      }
    } else {
      var evs := LeftoverCuts(s, u);
    }
  }

  /** Outstanding receives of earlier sessions. */
  function Older<E>(s: Udp<E>): int {
    |s.receives| - s.receives[s.gen]
  }

  /** An earlier session's receive comes back with an error while a session runs. */
  predicate Strikes<E>(s: Udp<E>, ev: UdpEvent<E>) {
    ev.Received? && ev.g in s.receives && ev.g != s.gen && !ev.ok && s.entity
  }

  /** It comes back with data, or too late. */
  predicate Spares<E>(s: Udp<E>, ev: UdpEvent<E>) {
    ev.Received? && ev.g in s.receives && ev.g != s.gen && (ev.ok || !s.entity)
  }

  function Strikings<E>(s: Udp<E>, evs: seq<UdpEvent<E>>): nat
    decreases |evs|
  {
    if |evs| == 0 then 0 else (if Strikes(s, evs[0]) then 1 else 0) + Strikings(UdpStep(s, evs[0]), evs[1..])
  }

  function Sparings<E>(s: Udp<E>, evs: seq<UdpEvent<E>>): nat
    decreases |evs|
  {
    if |evs| == 0 then 0 else (if Spares(s, evs[0]) then 1 else 0) + Sparings(UdpStep(s, evs[0]), evs[1..])
  }

  lemma SameReceives<E>(s: Udp<E>, ev: UdpEvent<E>)
    requires UdpStep(s, ev).gen == s.gen && !ev.Received? && !ev.Return?
    ensures UdpStep(s, ev).receives == s.receives
  {
    match ev {
      case Start(_, _, _) => GenGrows(s, ev);
      case Send(buf, endp) => SentFrames(s, Element(buf, endp));
      case Written(ok) =>
        if |s.pump.inFlight| > 0 && s.pump.sent == 0 {
          WrittenFrames(s, ok);
        }
      case Stop =>
      case StopIo =>
    }
  }

  lemma ReturnReceives<E>(s: Udp<E>, ok: bool)
    ensures var t := UdpStep(s, Return(ok)); t.receives == s.receives || t.receives == s.receives + multiset{s.gen}
    ensures UdpStep(s, Return(ok)).gen == s.gen
  {
    if |s.frames| > 0 && !s.frames[0].StopAfterError? && (s.frames[0].MsgHandler? ==> ok) {
      QuietReturn(s, ok);
    }
  }

  lemma ReceivedOlder<E>(s: Udp<E>, g: nat, ok: bool)
    ensures var t := UdpStep(s, Received(g, ok));
      && t.gen == s.gen && (g !in s.receives ==> Older(t) == Older(s))
      && (g in s.receives ==> Older(t) == Older(s) - if g == s.gen then 0 else 1)
  {
    if g in s.receives {
      assert |s.receives - multiset{g}| == |s.receives| - 1;
    }
  }

  lemma OlderStep<E>(s: Udp<E>, ev: UdpEvent<E>)
    requires UdpStep(s, ev).gen == s.gen
    ensures Older(UdpStep(s, ev)) == Older(s) - (if Strikes(s, ev) || Spares(s, ev) then 1 else 0)
  {
    if ev.Return? {
      ReturnReceives(s, ev.ok);
    } else if ev.Received? {
      ReceivedOlder(s, ev.g, ev.ok);
    } else {
      SameReceives(s, ev);
    }
  }

  lemma {:induction false} OlderRun<E>(s: Udp<E>, evs: seq<UdpEvent<E>>)
    requires UdpRun(s, evs).gen == s.gen
    ensures Older(UdpRun(s, evs)) + Strikings(s, evs) + Sparings(s, evs) == Older(s)
    decreases |evs|
  {
    if |evs| > 0 {
      GenGrows(s, evs[0]);
      GenGrowsRun(UdpStep(s, evs[0]), evs[1..]);
      OlderStep(s, evs[0]);
      OlderRun(UdpStep(s, evs[0]), evs[1..]);
    }
  }

  /** The session is over, or the frame that will stop it lies just above the `n` lowest ones. */
  ghost predicate Doomed<E>(s: Udp<E>, n: nat) {
    !s.entity || (|s.frames| > n && s.frames[|s.frames| - n - 1].StopAfterError?)
  }

  predicate EndsWith(fs: seq<Frame>, low: seq<Frame>) {
    |low| <= |fs| && fs[|fs| - |low|..] == low
  }

  lemma StopFrames<E>(s: Udp<E>)
    ensures var t := StopUdp(s); !t.entity && EndsWith(t.frames, s.frames)
  {
    var t := StopUdp(s);
    if s.entity && s.pump.io.started {
      assert t.frames == [CloseAfterStopIo, StoppedAfterStopIo] + s.frames;
    } else {
      assert t.frames == [] + s.frames == s.frames;
    }
  }

  lemma EndsPush(f: Frame, fs: seq<Frame>)
    ensures EndsWith([f] + fs, fs) && [] + fs == fs && EndsWith(fs, fs)
  {
  }

  lemma ReturnFrames<E>(s: Udp<E>, ok: bool)
    requires |s.frames| > 0
    ensures var t := OnReturn(s, ok); (t.entity ==> s.entity) && EndsWith(t.frames, s.frames[1..])
  {
    var t := s.(frames := s.frames[1..]);
    match s.frames[0] {
      case StopAfterError(_) => StopFrames(t);
      case MsgHandler(g) => EndsPush(StopAfterError(g), t.frames);
      case _ => EndsPush(CloseAfterStopIo, t.frames);
    }
  }

  lemma StartFrames<E>(s: Udp<E>, ev: UdpEvent<E>)
    requires ev.Start? && UdpStep(s, ev).gen == s.gen
    ensures UdpStep(s, ev) == s
  {
  }

  /** A step pushes frames on top, or takes the top one off first; and only a start raises the flag of the entity. */
  lemma FramesStep<E>(s: Udp<E>, ev: UdpEvent<E>)
    requires UdpStep(s, ev).gen == s.gen
    ensures var t := UdpStep(s, ev);
      && (t.entity ==> s.entity)
      && EndsWith(t.frames, if ev.Return? && |s.frames| > 0 then s.frames[1..] else s.frames)
  {
    if ev.Start? {
      StartFrames(s, ev);
    } else if ev.Send? {
      SentFrames(s, Element(ev.buf, ev.endp));
      EndsPush(CloseAfterStopIo, s.frames);
    } else if ev.Written? {
      if |s.pump.inFlight| > 0 && s.pump.sent == 0 {
        WrittenFrames(s, ev.ok);
      }
      EndsPush(StopAfterError(s.out.writer), s.frames);
    } else if ev.Stop? {
      StopFrames(s);
    } else if ev.Return? {
      if |s.frames| > 0 {
        ReturnFrames(s, ev.ok);
      }
    } else if ev.StopIo? {
      assert [CloseAfterStopIo] + [] + s.frames == [CloseAfterStopIo] + s.frames;
      EndsPush(CloseAfterStopIo, s.frames);
    } else {
      EndsPush(StopAfterError(ev.g), s.frames);
      EndsPush(MsgHandler(ev.g), s.frames);
    }
  }

  /** Frames pushed or popped above the doomed one. */
  lemma DoomedAbove<E>(t: Udp<E>, low: seq<Frame>, n: nat)
    requires EndsWith(t.frames, low) && n < |low| && low[|low| - n - 1].StopAfterError?
    ensures Doomed(t, n)
  {
    assert t.frames[|t.frames| - |low|..][|low| - n - 1] == t.frames[|t.frames| - n - 1];
  }

  lemma TailFromBottom(fs: seq<Frame>, n: nat)
    requires n + 1 < |fs|
    ensures fs[1..][|fs[1..]| - n - 1] == fs[|fs| - n - 1]
  {
  }

  lemma ReturnStops<E>(s: Udp<E>, ok: bool)
    requires |s.frames| > 0 && s.frames[0].StopAfterError?
    ensures !OnReturn(s, ok).entity
  {
    StopFrames(s.(frames := s.frames[1..]));
  }

  lemma DoomedReturn<E>(s: Udp<E>, ok: bool, n: nat)
    requires Doomed(s, n) && |s.frames| > 0
    ensures Doomed(OnReturn(s, ok), n)
  {
    ReturnFrames(s, ok);
    if s.entity {
      if |s.frames| == n + 1 {
        ReturnStops(s, ok);
      } else {
        TailFromBottom(s.frames, n);
        DoomedAbove(OnReturn(s, ok), s.frames[1..], n);
      }
    }
  }

  lemma DoomedTo<E>(s: Udp<E>, t: Udp<E>, n: nat)
    requires Doomed(s, n) && (t.entity ==> s.entity) && EndsWith(t.frames, s.frames)
    ensures Doomed(t, n)
  {
    if s.entity {
      DoomedAbove(t, s.frames, n);
    }
  }

  lemma DoomedStep<E>(s: Udp<E>, ev: UdpEvent<E>, n: nat)
    requires Doomed(s, n) && UdpStep(s, ev).gen == s.gen
    ensures Doomed(UdpStep(s, ev), n)
  {
    if ev.Return? && |s.frames| > 0 {
      DoomedReturn(s, ev.ok, n);
    } else {
      FramesStep(s, ev);
      DoomedTo(s, UdpStep(s, ev), n);
    }
  }

  lemma {:induction false} DoomedRun<E>(s: Udp<E>, evs: seq<UdpEvent<E>>, n: nat)
    requires Doomed(s, n) && UdpRun(s, evs).gen == s.gen
    ensures Doomed(UdpRun(s, evs), n)
    decreases |evs|
  {
    if |evs| > 0 {
      GenGrows(s, evs[0]);
      GenGrowsRun(UdpStep(s, evs[0]), evs[1..]);
      DoomedStep(s, evs[0], n);
      DoomedRun(UdpStep(s, evs[0]), evs[1..], n);
    }
  }

  lemma {:induction false} StruckRun<E>(s: Udp<E>, evs: seq<UdpEvent<E>>)
    requires Strikings(s, evs) > 0 && UdpRun(s, evs).gen == s.gen && UdpRun(s, evs).frames == []
    ensures !UdpRun(s, evs).entity
    decreases |evs|
  {
    var t := UdpStep(s, evs[0]);
    GenGrows(s, evs[0]);
    GenGrowsRun(t, evs[1..]);
    if Strikes(s, evs[0]) {
      assert t.frames == [StopAfterError(evs[0].g)] + s.frames;
      DoomedRun(t, evs[1..], |s.frames|);
    } else {
      StruckRun(t, evs[1..]);
    }
  }

  /** The receives outstanding at a start, over the session so begun: each is reported at most once, as a hit on the
      running session or harmlessly, with data or after the session's end; once all were reported these add up to the
      receives that were outstanding. A session that was hit is over when callbacks have returned. */
  lemma {:induction false} StaleReceivesAccounted<E>(deflt: E, before: seq<UdpEvent<E>>, dest: Option<E>, receiving: bool,
                                                     evs: seq<UdpEvent<E>>)
    requires !UdpRun(FreshUdp(deflt), before).entity
    requires var t := UdpRun(UdpStep(UdpRun(FreshUdp(deflt), before), Start(true, dest, receiving)), evs);
      t.gen == UdpRun(FreshUdp(deflt), before).gen + 1 && Older(t) == 0
    ensures var s := UdpRun(FreshUdp(deflt), before);
      var u := UdpStep(s, Start(true, dest, receiving));
      && Strikings(u, evs) + Sparings(u, evs) == |s.receives|
      && (Strikings(u, evs) > 0 <==> Sparings(u, evs) < |s.receives|)
      && (Strikings(u, evs) > 0 && UdpRun(u, evs).frames == [] ==> !UdpRun(u, evs).entity)
  {
    var s := UdpRun(FreshUdp(deflt), before);
    var u := UdpStep(s, Start(true, dest, receiving));
    SinceRun(FreshUdp(deflt), before, 0);
    assert u.gen !in s.receives;
    OlderRun(u, evs);
    if Strikings(u, evs) > 0 && UdpRun(u, evs).frames == [] {
      StruckRun(u, evs);
    }
  }

  /** A stop whose callbacks return at once. */
  lemma StopByReturns<E>(s: Udp<E>) returns (down: Udp<E>)
    requires s.entity && s.pump.io.started && s.frames == []
    ensures down == UdpStep(UdpStep(UdpStep(s, UdpEvent.Stop), Return(true)), Return(true))
    ensures down.frames == [] && !down.entity && down.pump == s.pump.(io := s.pump.io.(started := false))
    ensures down.receives == s.receives && down.out == s.out && down.gen == s.gen
  {
    var stopped := UdpStep(s, UdpEvent.Stop);
    assert stopped.frames == [CloseAfterStopIo, StoppedAfterStopIo] && !stopped.entity;
    var closed := UdpStep(stopped, Return(true));
    assert closed.frames == [StoppedAfterStopIo];
    down := UdpStep(closed, Return(true));
  }

  /** A receive aborted by one session, reported after the entity was started again, stops the new session. */
  lemma StaleReceiveStopsNewSession<E>(s: Udp<E>, g: nat)
    requires s.entity && s.pump.io.started && g in s.receives && s.frames == [] && g <= s.gen
    ensures var down := UdpStep(UdpStep(UdpStep(s, UdpEvent.Stop), Return(true)), Return(true));
      var again := UdpStep(down, Start(true, None, true));
      var t := UdpStep(UdpStep(again, Received(g, false)), Return(true));
      && down.frames == [] && again.entity && again.pump.io.started && Strikes(again, Received(g, false))
      && !t.entity && !t.pump.io.started
  {
    var down := StopByReturns(s);
    var again := UdpStep(down, Start(true, None, true));
    assert again.entity && again.pump.io.started && again.frames == [] && again.gen == s.gen + 1;
    var failed := UdpStep(again, Received(g, false));
    assert failed.frames == [StopAfterError(g)] && failed.entity && failed.pump.io.started;
  }

  // ----- receiving -----

  /** Message handlers in progress. */
  function Handling(fs: seq<Frame>): nat {
    if |fs| == 0 then 0 else (if fs[0].MsgHandler? then 1 else 0) + Handling(fs[1..])
  }

  /** Receive chains that go on: a receive is outstanding, or the message handler of one is running. */
  function Receiving<E>(s: Udp<E>): nat {
    |s.receives| + Handling(s.frames)
  }

  /** A start that gets past both gates and is asked to receive. */
  predicate BeginsReceiving<E>(s: Udp<E>, ev: UdpEvent<E>) {
    ev.Start? && !s.entity && ev.openOk && !s.pump.io.started && ev.receiving
  }

  /** A receive that fails, or a message handler that returns false. */
  predicate EndsReceiving<E>(s: Udp<E>, ev: UdpEvent<E>) {
    || (ev.Received? && ev.g in s.receives && !ev.ok)
    || (ev.Return? && |s.frames| > 0 && s.frames[0].MsgHandler? && !ev.ok)
  }

  function Begun<E>(s: Udp<E>, evs: seq<UdpEvent<E>>): nat
    decreases |evs|
  {
    if |evs| == 0 then 0 else (if BeginsReceiving(s, evs[0]) then 1 else 0) + Begun(UdpStep(s, evs[0]), evs[1..])
  }

  function Ended<E>(s: Udp<E>, evs: seq<UdpEvent<E>>): nat
    decreases |evs|
  {
    if |evs| == 0 then 0 else (if EndsReceiving(s, evs[0]) then 1 else 0) + Ended(UdpStep(s, evs[0]), evs[1..])
  }

  lemma HandlingPush(f: Frame, fs: seq<Frame>)
    ensures Handling([f] + fs) == Handling(fs) + (if f.MsgHandler? then 1 else 0)
    ensures [] + fs == fs
  {
    assert ([f] + fs)[1..] == fs;
  }

  lemma StopHandling<E>(s: Udp<E>)
    ensures Handling(StopUdp(s).frames) == Handling(s.frames) && StopUdp(s).receives == s.receives
  {
    if s.entity && s.pump.io.started {
      assert StopUdp(s).frames == [CloseAfterStopIo] + ([StoppedAfterStopIo] + s.frames);
      HandlingPush(StoppedAfterStopIo, s.frames);
      HandlingPush(CloseAfterStopIo, [StoppedAfterStopIo] + s.frames);
    } else {
      HandlingPush(StoppedAfterStopIo, s.frames);
    }
  }

  lemma StopIoHandling<E>(s: Udp<E>)
    requires s.pump.io.started
    ensures Receiving(StopIoThen(s, [])) == Receiving(s)
  {
    var t := StopIoThen(s, []);
    assert t.frames == [CloseAfterStopIo] + s.frames && t.receives == s.receives;
    HandlingPush(CloseAfterStopIo, s.frames);
  }

  lemma OpensReceiving<E>(s: Udp<E>, dest: Option<E>, receiving: bool)
    requires !s.entity
    ensures var t := OnStart(s, true, dest, receiving);
      && t.frames == s.frames
      && |t.receives| == |s.receives| + if !s.pump.io.started && receiving then 1 else 0
  {
  }

  lemma StartReceiving<E>(s: Udp<E>, openOk: bool, dest: Option<E>, receiving: bool)
    ensures Receiving(OnStart(s, openOk, dest, receiving))
         == Receiving(s) + if BeginsReceiving(s, Start(openOk, dest, receiving)) then 1 else 0
  {
    if !s.entity && !openOk {
      var t := OnStart(s, false, dest, receiving);
      assert t.frames == [StopAfterError(s.gen + 1)] + s.frames && t.receives == s.receives;
      HandlingPush(StopAfterError(s.gen + 1), s.frames);
    } else if !s.entity {
      OpensReceiving(s, dest, receiving);
    }
  }

  lemma ReceivedReceiving<E>(s: Udp<E>, g: nat, ok: bool)
    requires g in s.receives
    ensures Receiving(OnReceived(s, g, ok)) == Receiving(s) - if ok then 0 else 1
  {
    assert |s.receives - multiset{g}| == |s.receives| - 1;
    HandlingPush(MsgHandler(g), s.frames);
    HandlingPush(StopAfterError(g), s.frames);
  }

  lemma ReturnReceiving<E>(s: Udp<E>, ok: bool)
    requires |s.frames| > 0
    ensures Receiving(OnReturn(s, ok)) == Receiving(s) - if s.frames[0].MsgHandler? && !ok then 1 else 0
  {
    var t := s.(frames := s.frames[1..]);
    if s.frames[0].StopAfterError? {
      StopHandling(t);
    } else if s.frames[0].MsgHandler? && !ok {
      HandlingPush(StopAfterError(s.frames[0].g), t.frames);
    } else {
      QuietReturn(s, ok);
    }
  }

  lemma SendReceiving<E>(s: Udp<E>, ev: UdpEvent<E>)
    requires ev.Send? || ev.Written?
    ensures Receiving(UdpStep(s, ev)) == Receiving(s)
  {
    if ev.Send? {
      SentFrames(s, Element(ev.buf, ev.endp));
    } else if |s.pump.inFlight| > 0 && s.pump.sent == 0 {
      WrittenFrames(s, ev.ok);
      HandlingPush(StopAfterError(s.out.writer), s.frames);
    }
  }

  lemma ReceivingStep<E>(s: Udp<E>, ev: UdpEvent<E>)
    ensures Receiving(UdpStep(s, ev))
         == Receiving(s) + (if BeginsReceiving(s, ev) then 1 else 0) - (if EndsReceiving(s, ev) then 1 else 0)
  {
    match ev {
      case Start(openOk, dest, receiving) => StartReceiving(s, openOk, dest, receiving);
      case Stop => StopHandling(s);
      case StopIo =>
        if s.pump.io.started {
          StopIoHandling(s);
        }
      case Send(_, _) => SendReceiving(s, ev);
      case Written(_) => SendReceiving(s, ev);
      case Received(g, ok) =>
        if g in s.receives {
          ReceivedReceiving(s, g, ok);
        }
      case Return(ok) =>
        if |s.frames| > 0 {
          ReturnReceiving(s, ok);
        }
    }
  }

  lemma {:induction false} ReceivingRun<E>(s: Udp<E>, evs: seq<UdpEvent<E>>)
    ensures Receiving(UdpRun(s, evs)) + Ended(s, evs) == Receiving(s) + Begun(s, evs)
    decreases |evs|
  {
    if |evs| > 0 {
      ReceivingStep(s, evs[0]);
      ReceivingRun(UdpStep(s, evs[0]), evs[1..]);
    }
  }

  lemma {:induction false} HandlingIn(fs: seq<Frame>)
    ensures Handling(fs) > 0 ==> exists g :: MsgHandler(g) in fs
  {
    if |fs| > 0 {
      HandlingIn(fs[1..]);
      assert fs == [fs[0]] + fs[1..];
      if fs[0].MsgHandler? {
        assert MsgHandler(fs[0].g) in fs;
      } else if Handling(fs) > 0 {
        var g :| MsgHandler(g) in fs[1..];
        assert MsgHandler(g) in fs;
      }
    }
  }

  /** Counted from the events of any run: the receive chains that go on are the starts that were to receive less the
      receives that failed and the message handlers that returned false. So an entity that began to receive has a receive
      outstanding, or its message handler running, until one of these ends it. */
  lemma {:induction false} ReceivingFromEvents<E>(deflt: E, evs: seq<UdpEvent<E>>)
    ensures var s := UdpRun(FreshUdp(deflt), evs);
      && Receiving(s) == Begun(FreshUdp(deflt), evs) - Ended(FreshUdp(deflt), evs)
      && (Begun(FreshUdp(deflt), evs) > Ended(FreshUdp(deflt), evs) ==> |s.receives| > 0 || exists g :: MsgHandler(g) in s.frames)
  {
    ReceivingRun(FreshUdp(deflt), evs);
    HandlingIn(UdpRun(FreshUdp(deflt), evs).frames);
  }

  // ----- sending -----

  /** Every accepted send has a promised destination, and every buffer given to the socket one that it went to. */
  ghost predicate SendInv<E>(s: Udp<E>) {
    && PumpInv(s.pump)
    && |s.out.sentTo| == |s.pump.handed|
    && |s.out.promised| == |s.pump.accepted|
  }

  lemma HandedByOne<E>(p: Pump<E>, e: Element<E>)
    ensures var q := PumpSend(p, e); q.handed == p.handed || q.handed == p.handed + [e]
  {
  }

  lemma OneWritten<E>(p: Pump<E>)
    requires PumpInv(p) && |p.inFlight| > 0 && p.sent == 0
    ensures var q := PumpTransmit(p, |p.inFlight[0].buf|);
      && CanComplete(q, true) && PumpInv(PumpDone(q, true))
      && p.handed <= PumpDone(q, true).handed && |PumpDone(q, true).handed| <= |p.handed| + 1
      && PumpDone(q, true).accepted == p.accepted
  {
    PumpTransmitInv(p, |p.inFlight[0].buf|);
    PumpDoneInv(PumpTransmit(p, |p.inFlight[0].buf|), true);
  }

  function Destinations<E>(es: seq<Element<E>>, deflt: E): seq<(Buf, E)> {
    seq(|es|, i requires 0 <= i < |es| => Destination(es[i], deflt))
  }

  /** Within a session the default stays, and what is newly accepted or handed over goes where its own endpoint or
      the default says. */
  ghost predicate SameSession<E>(s: Udp<E>, t: Udp<E>) {
    && t.deflt == s.deflt
    && s.pump.handed <= t.pump.handed && s.pump.accepted <= t.pump.accepted
    && t.out.sentTo == s.out.sentTo + Destinations(t.pump.handed[|s.pump.handed|..], s.deflt)
    && t.out.promised == s.out.promised + Destinations(t.pump.accepted[|s.pump.accepted|..], s.deflt)
  }

  lemma NoneNew<E>(es: seq<Element<E>>, deflt: E, done: seq<(Buf, E)>)
    ensures done == done + Destinations(es[|es|..], deflt)
  {
  }

  lemma OneNew<E>(es: seq<Element<E>>, e: Element<E>, deflt: E, done: seq<(Buf, E)>)
    ensures done + [Destination(e, deflt)] == done + Destinations((es + [e])[|es|..], deflt)
  {
    assert (es + [e])[|es|..] == [e];
    assert Destinations([e], deflt) == [Destination(e, deflt)];
  }

  /** What WithSent records when the pump has handed over at most one more element. */
  lemma RecordedOne<E>(s: Udp<E>, p: Pump<E>)
    requires s.pump.handed <= p.handed && |p.handed| <= |s.pump.handed| + 1
    ensures WithSent(s, p).out.sentTo == s.out.sentTo + Destinations(p.handed[|s.pump.handed|..], s.deflt)
    ensures |s.out.sentTo| == |s.pump.handed| ==> |WithSent(s, p).out.sentTo| == |p.handed|
  {
    var k := |s.pump.handed|;
    if |p.handed| == k {
      NoneNew(p.handed, s.deflt, s.out.sentTo);
    } else {
      assert p.handed == s.pump.handed + [p.handed[k]];
      OneNew(s.pump.handed, p.handed[k], s.deflt, s.out.sentTo);
    }
  }

  /** What OnSend records when the pump has accepted the element, or not. */
  lemma PromisedOne<E>(s: Udp<E>, p: Pump<E>, e: Element<E>)
    requires PumpSend(s.pump, e) == p && |s.out.promised| == |s.pump.accepted|
    requires p.accepted == if s.pump.io.started then s.pump.accepted + [e] else s.pump.accepted
    ensures var t := OnSend(s, e);
      && t.pump == p && t.deflt == s.deflt && t.out.sentTo == WithSent(s, p).out.sentTo
      && t.out.promised == s.out.promised + Destinations(p.accepted[|s.pump.accepted|..], s.deflt)
      && |t.out.promised| == |p.accepted|
  {
    if s.pump.io.started {
      OneNew(s.pump.accepted, e, s.deflt, s.out.promised);
    } else {
      NoneNew(s.pump.accepted, s.deflt, s.out.promised);
    }
  }

  lemma SendPromises<E>(s: Udp<E>, e: Element<E>)
    requires SendInv(s)
    ensures var t := OnSend(s, e); var p := PumpSend(s.pump, e);
      && t.pump == p && t.deflt == s.deflt && t.out.sentTo == WithSent(s, p).out.sentTo
      && t.out.promised == s.out.promised + Destinations(p.accepted[|s.pump.accepted|..], s.deflt)
      && |t.out.promised| == |p.accepted| && s.pump.accepted <= p.accepted
  {
    var p := PumpSend(s.pump, e);
    assert p.accepted == if s.pump.io.started then s.pump.accepted + [e] else s.pump.accepted;
    PromisedOne(s, p, e);
  }

  lemma SendSent<E>(s: Udp<E>, e: Element<E>)
    requires SendInv(s)
    ensures var p := PumpSend(s.pump, e);
      && s.pump.handed <= p.handed && |WithSent(s, p).out.sentTo| == |p.handed|
      && WithSent(s, p).out.sentTo == s.out.sentTo + Destinations(p.handed[|s.pump.handed|..], s.deflt)
  {
    HandedByOne(s.pump, e);
    RecordedOne(s, PumpSend(s.pump, e));
  }

  lemma SendInvKept<E>(p: Pump<E>, e: Element<E>)
    requires PumpInv(p)
    ensures PumpInv(PumpSend(p, e))
  {
    PumpSendFlow(p, e);
    PumpSendWire(p, e);
  }

  lemma SendStep<E>(s: Udp<E>, e: Element<E>)
    requires SendInv(s)
    ensures SendInv(OnSend(s, e)) && SameSession(s, OnSend(s, e))
  {
    SendInvKept(s.pump, e);
    SendPromises(s, e);
    SendSent(s, e);
  }

  lemma WrittenOk<E>(s: Udp<E>)
    requires SendInv(s) && |s.pump.inFlight| > 0 && s.pump.sent == 0
    ensures SendInv(OnWritten(s, true)) && SameSession(s, OnWritten(s, true))
  {
    var p := PumpDone(PumpTransmit(s.pump, |s.pump.inFlight[0].buf|), true);
    OneWritten(s.pump);
    RecordedOne(s, p);
    NoneNew(s.pump.accepted, s.deflt, s.out.promised);
    assert WithSent(s, p).pump == p && WithSent(s, p).deflt == s.deflt && WithSent(s, p).out.promised == s.out.promised;
  }

  lemma WrittenError<E>(s: Udp<E>)
    requires SendInv(s) && |s.pump.inFlight| > 0 && s.pump.sent == 0
    ensures SendInv(OnWritten(s, false)) && SameSession(s, OnWritten(s, false))
  {
    PumpDoneInv(s.pump, false);
    NoneNew(s.pump.accepted, s.deflt, s.out.promised);
    NoneNew(s.pump.handed, s.deflt, s.out.sentTo);
    var q := PumpDone(s.pump, false);
    assert q.accepted == s.pump.accepted && q.handed == s.pump.handed;
  }

  /** Only the started flag of the pump moved, and nothing was sent. */
  ghost predicate FlagOnly<E>(s: Udp<E>, t: Udp<E>) {
    t.pump == s.pump.(io := s.pump.io.(started := t.pump.io.started)) && t.out == s.out
  }

  lemma StopFlag<E>(s: Udp<E>)
    ensures FlagOnly(s, StopUdp(s)) && StopUdp(s).deflt == s.deflt
  {
  }

  lemma ReturnFlag<E>(s: Udp<E>, ok: bool)
    requires |s.frames| > 0
    ensures FlagOnly(s, OnReturn(s, ok)) && OnReturn(s, ok).deflt == s.deflt
  {
    if s.frames[0].StopAfterError? {
      StopFlag(s.(frames := s.frames[1..]));
    } else if s.frames[0].MsgHandler? ==> ok {
      QuietReturn(s, ok);
    }
  }

  lemma StartFlag<E>(s: Udp<E>, openOk: bool, dest: Option<E>, receiving: bool)
    ensures FlagOnly(s, OnStart(s, openOk, dest, receiving))
    ensures s.entity ==> OnStart(s, openOk, dest, receiving) == s
  {
  }

  /** So do all steps but those that send; and only a start that gets past the gate changes the default. */
  lemma FlagSteps<E>(s: Udp<E>, ev: UdpEvent<E>)
    requires !ev.Send? && !ev.Written?
    ensures FlagOnly(s, UdpStep(s, ev)) && (UdpStep(s, ev).gen == s.gen ==> UdpStep(s, ev).deflt == s.deflt)
  {
    match ev {
      case Start(openOk, dest, receiving) => StartFlag(s, openOk, dest, receiving);
      case Stop => StopFlag(s);
      case Return(ok) =>
        if |s.frames| > 0 {
          ReturnFlag(s, ok);
        }
      case StopIo =>
      case Received(_, _) =>
    }
  }

  lemma UdpSendStep<E>(s: Udp<E>, ev: UdpEvent<E>)
    requires SendInv(s)
    ensures SendInv(UdpStep(s, ev))
    ensures UdpStep(s, ev).gen == s.gen ==> SameSession(s, UdpStep(s, ev))
    ensures UdpStep(s, ev).gen != s.gen ==> FlagOnly(s, UdpStep(s, ev))
  {
    if ev.Send? {
      SendStep(s, Element(ev.buf, ev.endp));
      GenGrows(s, ev);
    } else {
      NoneNew(s.pump.handed, s.deflt, s.out.sentTo);
      NoneNew(s.pump.accepted, s.deflt, s.out.promised);
      GenGrows(s, ev);
      if ev.Written? {
        if |s.pump.inFlight| > 0 && s.pump.sent == 0 {
          if ev.ok {
            WrittenOk(s);
          } else {
            WrittenError(s);
          }
        }
      } else {
        FlagSteps(s, ev);
        FlagKeeps(s.pump, UdpStep(s, ev).pump.io.started);
      }
    }
  }

  lemma {:induction false} UdpSendRun<E>(s: Udp<E>, evs: seq<UdpEvent<E>>)
    requires SendInv(s)
    ensures SendInv(UdpRun(s, evs))
    decreases |evs|
  {
    if |evs| > 0 {
      UdpSendStep(s, evs[0]);
      UdpSendRun(UdpStep(s, evs[0]), evs[1..]);
    }
  }

  lemma DestinationsCompose<E>(a: seq<Element<E>>, b: seq<Element<E>>, c: seq<Element<E>>, deflt: E, done: seq<(Buf, E)>)
    requires a <= b <= c
    ensures done + Destinations(b[|a|..], deflt) + Destinations(c[|b|..], deflt) == done + Destinations(c[|a|..], deflt)
  {
    var x, y := b[|a|..], c[|b|..];
    assert c[|a|..] == x + y;
    assert Destinations(x + y, deflt) == Destinations(x, deflt) + Destinations(y, deflt);
    Assoc(done, Destinations(x, deflt), Destinations(y, deflt));
  }

  lemma SessionsCompose<E>(s: Udp<E>, t: Udp<E>, u: Udp<E>)
    requires SameSession(s, t) && SameSession(t, u)
    ensures SameSession(s, u)
  {
    DestinationsCompose(s.pump.handed, t.pump.handed, u.pump.handed, s.deflt, s.out.sentTo);
    DestinationsCompose(s.pump.accepted, t.pump.accepted, u.pump.accepted, s.deflt, s.out.promised);
  }

  lemma SessionSelf<E>(s: Udp<E>)
    ensures SameSession(s, s)
  {
    NoneNew(s.pump.handed, s.deflt, s.out.sentTo);
    NoneNew(s.pump.accepted, s.deflt, s.out.promised);
  }

  lemma {:induction false} SessionRun<E>(s: Udp<E>, evs: seq<UdpEvent<E>>)
    requires SendInv(s) && UdpRun(s, evs).gen == s.gen
    ensures SendInv(UdpRun(s, evs)) && SameSession(s, UdpRun(s, evs))
    decreases |evs|
  {
    if |evs| > 0 {
      var t := UdpStep(s, evs[0]);
      GenGrows(s, evs[0]);
      GenGrowsRun(t, evs[1..]);
      UdpSendStep(s, evs[0]);
      SessionRun(t, evs[1..]);
      SessionsCompose(s, t, UdpRun(s, evs));
    } else {
      SessionSelf(s);
    }
  }

  /** In any stretch of any run in which no start gets past the gate: the datagrams given to the socket are, in order,
      the next accepted sends, a missing endpoint replaced by the default of that stretch; written at once or taken
      from the queue makes no difference. At most one is outstanding. */
  lemma {:induction false} UdpDestinations<E>(s: Udp<E>, evs: seq<UdpEvent<E>>)
    requires SendInv(s) && UdpRun(s, evs).gen == s.gen
    ensures var t := UdpRun(s, evs);
      && SendInv(t) && t.deflt == s.deflt
      && s.pump.handed <= t.pump.handed <= t.pump.accepted
      && t.out.sentTo == s.out.sentTo + Destinations(t.pump.accepted[|s.pump.handed|..|t.pump.handed|], s.deflt)
      && |t.pump.inFlight| <= 1
  {
    SessionRun(s, evs);
    var t := UdpRun(s, evs);
    assert t.pump.accepted[|s.pump.handed|..|t.pump.handed|] == t.pump.handed[|s.pump.handed|..];
  }

  // ----- sends that outlive their session -----

  /** Every datagram went where it was to go when it was accepted: to its own endpoint, or to the default of then. */
  ghost predicate Kept<E>(s: Udp<E>) {
    s.out.sentTo <= s.out.promised
  }

  predicate OtherDefault<E(==)>(u: Udp<E>, k: nat)
    requires k < |u.pump.accepted| == |u.out.promised|
  {
    u.out.promised[k] != Destination(u.pump.accepted[k], u.deflt)
  }

  /** Between `u` and `t` a datagram is handed over that was queued at `u`, has no endpoint and was accepted under
      another default than that of `u`. */
  ghost predicate Misdirects<E>(u: Udp<E>, t: Udp<E>)
    requires |u.out.promised| == |u.pump.accepted|
  {
    exists k :: |u.pump.handed| <= k < |t.pump.handed| && k < |u.pump.accepted| && OtherDefault(u, k)
  }

  /** The state at the end of the present session, or of the run if that comes first. */
  function SessionEnd<E>(s: Udp<E>, evs: seq<UdpEvent<E>>): Udp<E>
    decreases |evs|
  {
    if |evs| == 0 then s
    else
      var t := UdpStep(s, evs[0]);
      if t.gen != s.gen then s else SessionEnd(t, evs[1..])
  }

  /** Some start of the run sets a default other than that of a datagram without an endpoint which is then queued, and
      which is handed over in the session so begun. */
  ghost predicate Betrays<E>(s: Udp<E>, evs: seq<UdpEvent<E>>)
    requires SendInv(s)
    decreases |evs|
  {
    |evs| > 0 &&
    var t := UdpStep(s, evs[0]);
    UdpSendStep(s, evs[0]);
    (t.gen != s.gen && Misdirects(t, SessionEnd(t, evs[1..]))) || Betrays(t, evs[1..])
  }

  lemma AppendedAt<E>(done: seq<(Buf, E)>, es: seq<Element<E>>, deflt: E, k: nat)
    requires |done| <= |es| && k < |es|
    ensures (done + Destinations(es[|done|..], deflt))[k] == if k < |done| then done[k] else Destination(es[k], deflt)
  {
  }

  /** The k-th datagram after a stretch of one session. */
  lemma KeptAt<E>(s: Udp<E>, t: Udp<E>, k: nat)
    requires SendInv(s) && SendInv(t) && SameSession(s, t) && k < |t.pump.handed|
    ensures k < |t.pump.accepted|
    ensures t.out.sentTo[k] == if k < |s.pump.handed| then s.out.sentTo[k] else Destination(t.pump.accepted[k], s.deflt)
    ensures t.out.promised[k] == if k < |s.pump.accepted| then s.out.promised[k] else Destination(t.pump.accepted[k], s.deflt)
    ensures k < |s.pump.accepted| ==> t.pump.accepted[k] == s.pump.accepted[k]
  {
    assert t.pump.handed <= t.pump.accepted;
    AppendedAt(s.out.sentTo, t.pump.handed, s.deflt, k);
    AppendedAt(s.out.promised, t.pump.accepted, s.deflt, k);
  }

  lemma SentPrefix<E>(s: Udp<E>)
    requires SendInv(s)
    ensures Kept(s) <==> forall k: nat :: k < |s.out.sentTo| ==> s.out.sentTo[k] == s.out.promised[k]
  {
    assert |s.pump.handed| <= |s.pump.accepted|;
  }

  lemma KeptInSession<E>(s: Udp<E>, t: Udp<E>)
    requires SendInv(s) && SendInv(t) && SameSession(s, t)
    ensures Kept(t) <==> Kept(s) && !Misdirects(s, t)
  {
    var h, n, a := |s.pump.handed|, |t.pump.handed|, |s.pump.accepted|;
    assert s.pump.handed <= s.pump.accepted;
    if Misdirects(s, t) {
      var k: nat :| h <= k < n && k < a && OtherDefault(s, k);
      KeptAt(s, t, k);
    } else {
      forall k: nat | h <= k < n
        ensures k < |t.out.promised| && t.out.sentTo[k] == t.out.promised[k]
      {
        KeptAt(s, t, k);
        assert k < a ==> !OtherDefault(s, k);
      }
    }
    forall k: nat | k < h
      ensures k < |s.out.promised| && k < |t.out.promised|
      ensures t.out.sentTo[k] == s.out.sentTo[k] && t.out.promised[k] == s.out.promised[k]
    {
      KeptAt(s, t, k);
    }
    SentPrefix(s);
    SentPrefix(t);
  }

  lemma {:induction false} SessionEndSame<E>(s: Udp<E>, evs: seq<UdpEvent<E>>)
    requires SendInv(s)
    ensures SendInv(SessionEnd(s, evs)) && SameSession(s, SessionEnd(s, evs))
    decreases |evs|
  {
    SessionSelf(s);
    if |evs| > 0 {
      var t := UdpStep(s, evs[0]);
      UdpSendStep(s, evs[0]);
      if t.gen == s.gen {
        SessionEndSame(t, evs[1..]);
        SessionsCompose(s, t, SessionEnd(t, evs[1..]));
      }
    }
  }

  lemma {:induction false} KeptRun<E>(s: Udp<E>, evs: seq<UdpEvent<E>>)
    requires SendInv(s)
    ensures Kept(UdpRun(s, evs)) <==> Kept(s) && !Misdirects(s, SessionEnd(s, evs)) && !Betrays(s, evs)
    decreases |evs|
  {
    if |evs| > 0 {
      var t := UdpStep(s, evs[0]);
      UdpSendStep(s, evs[0]);
      KeptRun(t, evs[1..]);
      if t.gen == s.gen {
        var z := SessionEnd(t, evs[1..]);
        SessionEndSame(t, evs[1..]);
        SessionsCompose(s, t, z);
        KeptInSession(t, z);
        KeptInSession(s, z);
      }
    }
  }

  lemma FreshSend<E>(deflt: E)
    ensures SendInv(FreshUdp(deflt))
  {
    assert Partial(FreshPump<E>()) == [];
  }

  /** In every run: the datagrams given to the socket are the accepted sends in order, each going to its own endpoint
      or to the default in force when it was accepted, exactly if no start set another default while a datagram without
      an endpoint was queued that is then handed over in the session so begun. */
  lemma {:induction false} PromisedDestinationsIff<E>(deflt: E, evs: seq<UdpEvent<E>>)
    ensures SendInv(FreshUdp(deflt))
    ensures var t := UdpRun(FreshUdp(deflt), evs); t.out.sentTo <= t.out.promised <==> !Betrays(FreshUdp(deflt), evs)
  {
    FreshSend(deflt);
    KeptRun(FreshUdp(deflt), evs);
  }

  /** Successful write completions hand over the queue, one element each. */
  lemma {:induction false} HandOver<E>(s: Udp<E>, n: nat) returns (evs: seq<UdpEvent<E>>)
    requires SendInv(s) && Since(s, 0) && s.pump.io.started && s.pump.inFlight != [] && n <= |s.pump.io.outq.elems|
    ensures UdpRun(s, evs).gen == s.gen && |UdpRun(s, evs).pump.handed| == |s.pump.handed| + n
    decreases n
  {
    if n == 0 {
      evs := [];
    } else {
      var t := UdpStep(s, Written(true));
      UdpSendStep(s, Written(true));
      SinceStep(s, Written(true), 0);
      OneWritten(s.pump);
      var rest := HandOver(t, n - 1);
      evs := [Written(true)] + rest;
      assert evs[1..] == rest;
    }
  }

  lemma {:induction false} StuckRun<E>(s: Udp<E>, evs: seq<UdpEvent<E>>)
    requires Stuck(s.pump)
    ensures var t := UdpRun(s, evs); Stuck(t.pump) && t.out.sentTo == s.out.sentTo
    decreases |evs|
  {
    if |evs| > 0 {
      if !evs[0].Send? && !evs[0].Written? {
        FlagSteps(s, evs[0]);
      }
      StuckRun(UdpStep(s, evs[0]), evs[1..]);
    }
  }

  /** With nothing in flight but something queued, nothing is handed over again. */
  lemma {:induction false} IdleSendsNothing<E>(u: Udp<E>, evs: seq<UdpEvent<E>>)
    requires SendInv(u) && u.pump.inFlight == []
    ensures !Misdirects(u, UdpRun(u, evs))
  {
    if u.pump.io.outq.elems != [] {
      StuckRun(u, evs);
      UdpSendRun(u, evs);
    }
  }

  /** The exact condition before a start, which the caller can check: the session so begun can send a datagram astray
      exactly if a write is still outstanding and a queued datagram has no endpoint and was accepted under another
      default. */
  lemma {:induction false} StartIsFaithfulIff<E>(deflt: E, before: seq<UdpEvent<E>>, dest: Option<E>, receiving: bool)
    requires !UdpRun(FreshUdp(deflt), before).entity
    ensures var s := UdpRun(FreshUdp(deflt), before);
      var u := UdpStep(s, Start(true, dest, receiving));
      && SendInv(s) && SendInv(u)
      && ((exists evs :: UdpRun(u, evs).gen == u.gen && Misdirects(u, UdpRun(u, evs)))
          <==> s.pump.inFlight != [] && exists k :: |s.pump.handed| <= k < |s.pump.accepted| && OtherDefault(u, k))
  {
    var s := UdpRun(FreshUdp(deflt), before);
    var u := UdpStep(s, Start(true, dest, receiving));
    FreshSend(deflt);
    UdpSendRun(FreshUdp(deflt), before);
    UdpSendStep(s, Start(true, dest, receiving));
    SinceRun(FreshUdp(deflt), before, 0);
    SinceStep(s, Start(true, dest, receiving), 0);
    assert u.pump.io.started;
    if evs :| UdpRun(u, evs).gen == u.gen && Misdirects(u, UdpRun(u, evs)) {
      if u.pump.inFlight == [] {
        IdleSendsNothing(u, evs);
      }
    }
    if k :| s.pump.inFlight != [] && |s.pump.handed| <= k < |s.pump.accepted| && OtherDefault(u, k) {
      var evs := HandOver(u, k - |u.pump.handed| + 1);
      assert Misdirects(u, UdpRun(u, evs));
    }
  }

  lemma LeavesForDefault<E>(s: Udp<E>)
    requires s.pump.io.started && |s.pump.inFlight| == 1 && s.pump.sent == 0 && |s.pump.io.outq.elems| > 0
    requires s.pump.io.outq.elems[0].endp == None
    ensures UdpStep(s, Written(true)).out.sentTo == s.out.sentTo + [(s.pump.io.outq.elems[0].buf, s.deflt)]
    ensures UdpStep(s, Written(true)).out.promised == s.out.promised
  {
  }

  lemma BusyWithTwo()
    ensures var one := UdpStep(UdpStep(FreshUdp(0), Start(true, Some(1), false)), Send([], None));
      var busy := UdpStep(one, Send([7], None));
      && busy.entity && busy.pump.io.started && busy.frames == []
      && busy.pump.inFlight == [Element([], None)] && busy.pump.sent == 0
      && busy.pump.io.outq.elems == [Element([7], None)]
      && busy.out == Outgoing(1, [([], 1), ([7], 1)], [([], 1)])
  {
    var up := UdpStep(FreshUdp(0), Start(true, Some(1), false));
    assert up.pump.io.started && up.deflt == 1 && up.entity;
    var one := UdpStep(up, Send([], None));
    assert one.pump.inFlight == [Element([], None)] && one.out == Outgoing(1, [([], 1)], [([], 1)]);
  }

  /** It happens: a datagram queued under default 1 leaves for the next session's default 2. */
  lemma QueuedSendFollowsNewDefault()
    ensures var busy := UdpStep(UdpStep(UdpStep(FreshUdp(0), Start(true, Some(1), false)), Send([], None)), Send([7], None));
      var down := UdpStep(UdpStep(UdpStep(busy, UdpEvent.Stop), Return(true)), Return(true));
      var t := UdpStep(UdpStep(down, Start(true, Some(2), false)), Written(true));
      t.out.sentTo == [([], 1), ([7], 2)] && t.out.promised == [([], 1), ([7], 1)]
  {
    var busy := UdpStep(UdpStep(UdpStep(FreshUdp(0), Start(true, Some(1), false)), Send([], None)), Send([7], None));
    BusyWithTwo();
    var down := StopByReturns(busy);
    StartFlag(down, true, Some(2), false);
    var again := UdpStep(down, Start(true, Some(2), false));
    assert again.pump.io.started && again.deflt == 2;
    LeavesForDefault(again);
  }

  /** It does not if the default is changed and changed back before the datagram is handed over; hence the condition
      speaks of the session in which it is handed over. */
  lemma ChangedBackInTime<E>(busy: Udp<E>, d: E)
    requires busy.entity && busy.pump.io.started && busy.frames == []
    requires |busy.pump.inFlight| == 1 && busy.pump.sent == 0
    requires |busy.pump.io.outq.elems| > 0 && busy.pump.io.outq.elems[0].endp == None
    ensures var first := UdpStep(UdpStep(UdpStep(busy, UdpEvent.Stop), Return(true)), Return(true));
      var other := UdpStep(first, Start(true, Some(d), false));
      var down := UdpStep(UdpStep(UdpStep(other, UdpEvent.Stop), Return(true)), Return(true));
      var t := UdpStep(UdpStep(down, Start(true, Some(busy.deflt), false)), Written(true));
      other.deflt == d && t.out.sentTo == busy.out.sentTo + [(busy.pump.io.outq.elems[0].buf, busy.deflt)]
  {
    var first := StopByReturns(busy);
    StartFlag(first, true, Some(d), false);
    var other := UdpStep(first, Start(true, Some(d), false));
    assert other.pump.io.started && other.entity && other.frames == [];
    var down := StopByReturns(other);
    StartFlag(down, true, Some(busy.deflt), false);
    var again := UdpStep(down, Start(true, Some(busy.deflt), false));
    assert again.pump.io.started && again.deflt == busy.deflt;
    LeavesForDefault(again);
  }

  lemma LostDone<E>(p: Pump<E>, ok: bool)
    requires CanComplete(p, ok) && |p.inFlight| == 1 && p.io.writing && (!ok || !p.io.started)
    ensures Stuck(PumpDone(p, ok)) && PumpDone(p, ok).handed == p.handed
  {
  }

  lemma LostWrite<E>(s: Udp<E>, ok: bool)
    requires SendInv(s) && |s.pump.inFlight| > 0 && s.pump.sent == 0 && (!ok || !s.pump.io.started)
    ensures Stuck(OnWritten(s, ok).pump) && OnWritten(s, ok).out.sentTo == s.out.sentTo
  {
    if ok {
      LostDone(PumpTransmit(s.pump, |s.pump.inFlight[0].buf|), true);
    } else {
      LostDone(s.pump, false);
    }
  }

  /** After a write error, or a write completing while stopped, the entity never sends again, restarted or not. */
  lemma {:induction false} UdpStuckForever<E>(s: Udp<E>, ok: bool, evs: seq<UdpEvent<E>>)
    requires SendInv(s) && s.pump.inFlight != [] && s.pump.sent == 0 && (!ok || !s.pump.io.started)
    ensures var t := UdpRun(UdpStep(s, Written(ok)), evs); Stuck(t.pump) && t.out.sentTo == s.out.sentTo
  {
    LostWrite(s, ok);
    StuckRun(OnWritten(s, ok), evs);
  }

  // ----- the class, with callbacks that return at once -----

  function StopIoQuiet<E>(s: Udp<E>): Udp<E> {
    if s.pump.io.started then OnReturn(StopIoThen(s, []), true) else s
  }

  function StopQuiet<E>(s: Udp<E>): Udp<E> {
    if !s.entity then s
    else Emit(StopIoQuiet(s.(entity := false)), Failed(None, EntityStopped))
  }

  /** What stop() tells the application: of the handler if IO was started, and of the entity. */
  function StopTells(io: bool, gen: nat): seq<Callback> {
    (if io then [Failed(None, HandlerStopped), Closed(gen, 0)] else []) + [Failed(None, EntityStopped)]
  }

  /** What stop() of a started entity leaves. */
  lemma StopQuietIs<E>(s: Udp<E>)
    requires s.entity
    ensures var t := StopQuiet(s);
      && !t.entity && !t.pump.io.started && t.open == (s.open && !s.pump.io.started)
      && t.trace == s.trace + StopTells(s.pump.io.started, s.gen)
      && t.frames == s.frames && t.gen == s.gen && t.receives == s.receives && t.deflt == s.deflt && t.out == s.out
      && t.pump == s.pump.(io := s.pump.io.(started := false))
  {
    if s.pump.io.started {
      var u := s.(entity := false);
      assert ([CloseAfterStopIo] + [] + u.frames)[1..] == u.frames;
      assert StopIoThen(u, []).frames == [CloseAfterStopIo] + u.frames;
      assert StopQuiet(s).trace == s.trace + [Failed(None, HandlerStopped)] + [Closed(s.gen, 0)] + [Failed(None, EntityStopped)];
      assert StopQuiet(s).trace == s.trace + StopTells(true, s.gen);
    }
  }

  lemma StopIoReturns<E>(t: Udp<E>)
    requires t.pump.io.started
    ensures OnReturn(StopIoThen(t, [StoppedAfterStopIo]), true) == StopIoQuiet(t).(frames := [StoppedAfterStopIo] + t.frames)
  {
    var stopped := StopIoThen(t, [StoppedAfterStopIo]);
    assert stopped.frames == [CloseAfterStopIo] + ([StoppedAfterStopIo] + t.frames);
    assert stopped.frames[1..] == [StoppedAfterStopIo] + t.frames;
    assert StopIoThen(t, []).frames == [CloseAfterStopIo] + t.frames;
    assert StopIoThen(t, []).frames[1..] == t.frames;
  }

  /** stop() step by step, its callbacks returning at once, is StopQuiet. */
  lemma StopIsQuiet<E>(s: Udp<E>)
    ensures s.entity && s.pump.io.started ==> StopQuiet(s) == OnReturn(OnReturn(StopUdp(s), true), true)
    ensures !(s.entity && s.pump.io.started) ==> StopQuiet(s) == StopUdp(s)
  {
    if s.entity {
      var t := s.(entity := false);
      if s.pump.io.started {
        StopIoReturns(t);
        var u := StopIoQuiet(t).(frames := [StoppedAfterStopIo] + t.frames);
        assert u.frames[1..] == t.frames;
        assert [] + t.frames == t.frames;
      } else {
        assert [] + t.frames == t.frames;
      }
    }
  }

  /** The callbacks of a failure return at once, and so do those of the stop() that follows, two if it stops IO. */
  function Settle<E>(s: Udp<E>, stopsIo: bool): Udp<E> {
    var t := UdpStep(s, Return(true));
    if stopsIo then UdpStep(UdpStep(t, Return(true)), Return(true)) else t
  }

  lemma ReturnsTop<E>(s: Udp<E>)
    requires |s.frames| > 0
    ensures UdpStep(s, Return(true)) == OnReturn(s, true)
  {
  }

  lemma StopSettles<E>(s: Udp<E>)
    requires s.entity && s.pump.io.started
    ensures UdpStep(UdpStep(StopUdp(s), Return(true)), Return(true)) == StopQuiet(s)
  {
    StopIsQuiet(s);
    var t := s.(entity := false);
    StopIoReturns(t);
    ReturnsTop(StopIoThen(t, [StoppedAfterStopIo]));
    ReturnsTop(OnReturn(StopIoThen(t, [StoppedAfterStopIo]), true));
  }

  lemma FailureReturns<E>(s: Udp<E>, why: Reason, g: nat)
    ensures UdpStep(Fail(s, why, [StopAfterError(g)]), Return(true)) == StopUdp(Emit(s, Failed(None, why)))
  {
    var f := Fail(s, why, [StopAfterError(g)]);
    assert f.frames == [StopAfterError(g)] + s.frames && f.frames[1..] == s.frames;
  }

  lemma FailureSettles<E>(s: Udp<E>, why: Reason, g: nat)
    ensures Settle(Fail(s, why, [StopAfterError(g)]), s.entity && s.pump.io.started) == StopQuiet(Emit(s, Failed(None, why)))
  {
    var e := Emit(s, Failed(None, why));
    FailureReturns(s, why, g);
    if s.entity && s.pump.io.started {
      StopSettles(e);
    } else {
      StopIsQuiet(e);
    }
  }

  /** Ended, IO stopped, after the given callbacks; the socket is closed if IO had been started. */
  ghost predicate StoppedAfter<E>(s: Udp<E>, tr: seq<Callback>, t: Udp<E>) {
    && !t.entity && !t.pump.io.started && t.open == (s.open && !s.pump.io.started) && t.frames == []
    && t.trace == tr + StopTells(s.pump.io.started, t.gen)
  }

  lemma WriteFailedState<E>(s: Udp<E>)
    requires |s.pump.inFlight| > 0
    ensures var t := WriteFailed(s);
      && t.pump.io == s.pump.io && t.entity == s.entity && t.open == s.open && t.deflt == s.deflt
      && t.frames == s.frames && t.out == s.out
  {
  }

  lemma FailureFrom<E>(s: Udp<E>, why: Reason, g: nat)
    requires s.frames == []
    ensures var t := Settle(Fail(s, why, [StopAfterError(g)]), s.entity && s.pump.io.started);
      && (s.entity ==> StoppedAfter(s, s.trace + [Failed(None, why)], t) && t.gen == s.gen)
      && (!s.entity ==> t == Emit(s, Failed(None, why)))
  {
    FailureSettles(s, why, g);
    if s.entity {
      StopQuietIs(Emit(s, Failed(None, why)));
    }
  }

  /** What a failure leads to. */
  ghost predicate FailureEnds<E>(s: Udp<E>, why: Reason, t: Udp<E>) {
    var told := s.trace + [Failed(None, why)];
    && !t.entity && !t.pump.io.started && t.frames == []
    && (s.entity ==> t.open == (s.open && !s.pump.io.started) && t.trace == told + StopTells(s.pump.io.started, s.gen))
    && (!s.entity ==> t.open == s.open && t.trace == told)
  }

  lemma ReceiveErrorEnds<E>(s: Udp<E>, g: nat)
    requires s.frames == [] && (s.pump.io.started ==> s.entity) && g in s.receives
    ensures FailureEnds(s, SystemError, Settle(UdpStep(s, Received(g, false)), s.entity && s.pump.io.started))
  {
    FailureFrom(s.(receives := s.receives - multiset{g}), SystemError, g);
  }

  lemma WriteErrorEnds<E>(s: Udp<E>)
    requires s.frames == [] && (s.pump.io.started ==> s.entity) && |s.pump.inFlight| > 0 && s.pump.sent == 0
    ensures FailureEnds(s, SystemError, Settle(UdpStep(s, Written(false)), s.entity && s.pump.io.started))
  {
    WriteFailedState(s);
    FailureFrom(WriteFailed(s), SystemError, s.out.writer);
    assert UdpStep(s, Written(false)) == Fail(WriteFailed(s), SystemError, [StopAfterError(s.out.writer)]);
  }

  lemma HandlerFalseEnds<E>(s: Udp<E>, g: nat)
    requires s.frames == [MsgHandler(g)] && (s.pump.io.started ==> s.entity)
    ensures FailureEnds(s, MessageHandlerTerminated, Settle(UdpStep(s, Return(false)), s.entity && s.pump.io.started))
  {
    assert s.frames[1..] == [];
    FailureFrom(s.(frames := []), MessageHandlerTerminated, g);
  }

  lemma OpenErrorEnds<E>(s: Udp<E>, dest: Option<E>, receiving: bool)
    requires s.frames == [] && !s.entity && !s.pump.io.started
    ensures var t := Settle(UdpStep(s, Start(false, dest, receiving)), false);
      && !t.entity && !t.pump.io.started && t.frames == [] && t.open == s.open && t.receives == s.receives
      && t.trace == s.trace + [Failed(None, SystemError)] + [Failed(None, EntityStopped)]
  {
    FailureFrom(Begin(s), SystemError, s.gen + 1);
    assert StopTells(false, s.gen + 1) == [Failed(None, EntityStopped)];
  }

  /** In any reachable state between callbacks, a failed receive or write, and in the message handler its returning false:
      the application is told of it, and once callbacks have returned the entity and its IO are stopped, the socket is
      closed if IO was started, and the application has been told what stop() tells, if the entity was started. */
  lemma {:induction false} FailureStops<E>(deflt: E, evs: seq<UdpEvent<E>>, ev: UdpEvent<E>)
    requires var s := UdpRun(FreshUdp(deflt), evs);
      || (s.frames == [] && ev.Received? && ev.g in s.receives && !ev.ok)
      || (s.frames == [] && ev.Written? && |s.pump.inFlight| > 0 && !ev.ok)
      || (|s.frames| == 1 && s.frames[0].MsgHandler? && ev.Return? && !ev.ok)
    ensures var s := UdpRun(FreshUdp(deflt), evs);
      FailureEnds(s, if ev.Return? then MessageHandlerTerminated else SystemError,
                  Settle(UdpStep(s, ev), s.entity && s.pump.io.started))
  {
    var s := UdpRun(FreshUdp(deflt), evs);
    UdpLifecycleIff(deflt, evs);
    SinceRun(FreshUdp(deflt), evs, 0);
    if ev.Received? {
      ReceiveErrorEnds(s, ev.g);
    } else if ev.Written? {
      WriteErrorEnds(s);
    } else {
      HandlerFalseEnds(s, s.frames[0].g);
    }
  }

  /** A start whose open fails, in any reachable state between callbacks, ends stopped. */
  lemma {:induction false} OpenErrorStops<E>(deflt: E, evs: seq<UdpEvent<E>>, dest: Option<E>, receiving: bool)
    requires UdpRun(FreshUdp(deflt), evs).frames == [] && !UdpRun(FreshUdp(deflt), evs).entity
    ensures var s := UdpRun(FreshUdp(deflt), evs);
      var t := Settle(UdpStep(s, Start(false, dest, receiving)), false);
      && !t.entity && !t.pump.io.started && t.frames == [] && t.open == s.open && t.receives == s.receives
      && t.trace == s.trace + [Failed(None, SystemError)] + [Failed(None, EntityStopped)]
  {
    UdpLifecycleIff(deflt, evs);
    OpenErrorEnds(UdpRun(FreshUdp(deflt), evs), dest, receiving);
  }

  /** What the posted task of a send does, in terms of io_common. */
  lemma SentState<E>(s: Udp<E>, e: Element<E>)
    ensures var t := OnSend(s, e);
      var (start, io) := WriteSetup(s.pump.io, e);
      && t.pump.io == io && t.entity == s.entity && t.open == s.open && t.deflt == s.deflt && t.frames == s.frames
      && t.out.sentTo == s.out.sentTo + if start then [Destination(e, s.deflt)] else []
  {
    assert s.out.sentTo + [] == s.out.sentTo;
  }

  /** What a successful write completion does, in terms of io_common. */
  lemma WrittenState<E>(s: Udp<E>)
    requires |s.pump.inFlight| > 0 && s.pump.sent == 0
    ensures var t := OnWritten(s, true);
      var (next, io) := TakeNext(s.pump.io);
      && t.pump.io == io && t.entity == s.entity && t.open == s.open && t.deflt == s.deflt && t.frames == s.frames
      && t.out.sentTo == s.out.sentTo + if next.Some? then [Destination(next.value, s.deflt)] else []
  {
    assert s.out.sentTo + [] == s.out.sentTo;
  }

  lemma BeginIoIs<E>(s: Udp<E>, dest: Option<E>, receiving: bool)
    ensures var t := BeginIo(s, dest, receiving);
      && t.pump.io == s.pump.io.(started := true) && t.entity == s.entity && t.open == s.open && t.frames == s.frames
      && t.gen == s.gen && t.trace == s.trace && (s.pump.io.started ==> t == s)
      && (!s.pump.io.started ==> && t.deflt == (if dest.Some? then dest.value else s.deflt)
                                 && t.receives == s.receives + if receiving then multiset{s.gen} else multiset{})
  {
  }

  lemma WrittenOkStep<E>(s: Udp<E>)
    requires |s.pump.inFlight| > 0 && s.pump.sent == 0
    ensures UdpStep(s, Written(true)) == OnWritten(s, true)
  {
  }

  lemma StopIoQuietTrace<E>(s: Udp<E>)
    ensures var t := StopIoQuiet(s);
      && t.trace == s.trace + (if s.pump.io.started then [Failed(None, HandlerStopped), Closed(s.gen, 0)] else [])
      && t.frames == s.frames && t.pump.io == s.pump.io.(started := false)
      && t.open == (s.open && !s.pump.io.started) && t.entity == s.entity && t.deflt == s.deflt
  {
    if s.pump.io.started {
      assert ([CloseAfterStopIo] + [] + s.frames)[1..] == s.frames;
      var f := s.trace + [Failed(None, HandlerStopped)];
      assert f + [Closed(s.gen, 0)] == s.trace + [Failed(None, HandlerStopped), Closed(s.gen, 0)];
    }
  }

  lemma OpenFails<E>(s: Udp<E>, dest: Option<E>, receiving: bool)
    requires !s.entity
    ensures Settle(UdpStep(s, Start(false, dest, receiving)), s.pump.io.started)
         == StopQuiet(Emit(Begin(s), Failed(None, SystemError)))
  {
    FailureSettles(Begin(s), SystemError, s.gen + 1);
  }

  lemma Opens<E>(s: Udp<E>, dest: Option<E>, receiving: bool)
    requires !s.entity
    ensures UdpStep(s, Start(true, dest, receiving))
         == BeginIo(Emit(Begin(s).(open := true), Opened(s.gen + 1, 1)), dest, receiving)
  {
  }

  lemma ReceiveFails<E>(s: Udp<E>, g: nat)
    requires g in s.receives
    ensures Settle(UdpStep(s, Received(g, false)), s.entity && s.pump.io.started)
         == StopQuiet(Emit(s.(receives := s.receives - multiset{g}), Failed(None, SystemError)))
  {
    FailureSettles(s.(receives := s.receives - multiset{g}), SystemError, g);
  }

  lemma WriteFails<E>(s: Udp<E>)
    requires |s.pump.inFlight| > 0 && s.pump.sent == 0
    ensures Settle(UdpStep(s, Written(false)), s.entity && s.pump.io.started)
         == StopQuiet(Emit(WriteFailed(s), Failed(None, SystemError)))
  {
    WriteFailedState(s);
    FailureSettles(WriteFailed(s), SystemError, s.out.writer);
  }

  lemma HandlerFails<E>(s: Udp<E>)
    requires |s.frames| == 1 && s.frames[0].MsgHandler?
    ensures Settle(UdpStep(s, Return(false)), s.entity && s.pump.io.started)
         == StopQuiet(Emit(s.(frames := []), Failed(None, MessageHandlerTerminated)))
  {
    assert s.frames[1..] == [];
    FailureSettles(s.(frames := []), MessageHandlerTerminated, s.frames[0].g);
  }

  /** A session from its start to a failed receive, word for word. */
  lemma WholeSession()
    ensures var up := UdpStep(FreshUdp(0), Start(true, Some(5), true));
      var t := Settle(UdpStep(UdpStep(UdpStep(up, Received(1, true)), Return(true)), Received(1, false)), true);
      && up.entity && up.pump.io.started && up.open && up.deflt == 5 && up.receives == multiset{1}
      && !t.entity && !t.pump.io.started && !t.open && t.receives == multiset{} && t.frames == []
      && t.trace == [Opened(1, 1), Failed(None, SystemError), Failed(None, HandlerStopped), Closed(1, 0), Failed(None, EntityStopped)]
  {
    var up := UdpStep(FreshUdp(0), Start(true, Some(5), true));
    assert up.trace == [Opened(1, 1)] && up.receives == multiset{1} && up.frames == [] && up.gen == 1;
    var handling := UdpStep(up, Received(1, true));
    assert handling.frames == [MsgHandler(1)] && handling.receives == multiset{};
    var again := UdpStep(handling, Return(true));
    assert again == up;
    ReceiveFails(up, 1);
    StopQuietIs(Emit(up.(receives := up.receives - multiset{1}), Failed(None, SystemError)));
    assert StopTells(true, 1) == [Failed(None, HandlerStopped), Closed(1, 0), Failed(None, EntityStopped)];
  }

  /** A start that opened the socket, with its open callback and the start_io of that. */
  ghost predicate OpenedFrom<E>(s: Udp<E>, dest: Option<E>, receiving: bool, t: Udp<E>) {
    && t.entity && t.open && t.pump.io.started && t.gen == s.gen + 1 && t.trace == s.trace + [Opened(t.gen, 1)]
    && (!s.pump.io.started ==> && t.deflt == (if dest.Some? then dest.value else s.deflt)
                               && t.receives == s.receives + if receiving then multiset{t.gen} else multiset{})
  }

  lemma OpenedSo<E>(s: Udp<E>, dest: Option<E>, receiving: bool)
    requires !s.entity
    ensures OpenedFrom(s, dest, receiving, OnStart(s, true, dest, receiving))
  {
  }

  /** A failure and its end: the application was told of it, and a started entity is stopped, with its IO and its socket,
      and the application was told that too. */
  ghost predicate FailedFrom<E>(s: Udp<E>, why: Reason, t: Udp<E>) {
    var told := s.trace + [Failed(None, why)];
    && !t.entity && t.gen == s.gen && t.deflt == s.deflt && t.out == s.out
    && (s.entity ==> && !t.pump.io.started && t.open == (s.open && !s.pump.io.started)
                     && t.trace == told + StopTells(s.pump.io.started, s.gen))
    && (!s.entity ==> t.pump.io.started == s.pump.io.started && t.open == s.open && t.trace == told)
  }

  lemma FailsSo<E>(s: Udp<E>, why: Reason)
    ensures FailedFrom(s, why, StopQuiet(Emit(s, Failed(None, why))))
    ensures StopQuiet(Emit(s, Failed(None, why))).receives == s.receives
  {
    if s.entity {
      StopQuietIs(Emit(s, Failed(None, why)));
    }
  }

  lemma OpenFailedSo<E>(s: Udp<E>, dest: Option<E>, receiving: bool)
    requires !s.entity
    ensures var t := StopQuiet(Emit(Begin(s), Failed(None, SystemError)));
      && t == Settle(UdpStep(s, Start(false, dest, receiving)), s.pump.io.started)
      && FailedFrom(s.(entity := true, gen := s.gen + 1), SystemError, t)
  {
    OpenFails(s, dest, receiving);
    FailsSo(Begin(s), SystemError);
  }

  /** The entity. Outstanding operations are only in `machine`. */
  class UdpEntityIo<E, C> {
    const ioCommon: IoCommon<E>
    const entity: NetEntityCommon<C>
    var socketOpen: bool
    var defaultDestEndp: E
    var byteVec: Buf
    var maxSize: nat
    var inHandler: bool // the message handler is running
    ghost var machine: Udp<E>

    ghost predicate Valid() reads this, ioCommon, ioCommon.outq, entity {
      Linked() && machine.entity == entity.started
    }

    /** All but the flag of the entity shows the state of the machine. */
    ghost predicate Linked() reads this, ioCommon, ioCommon.outq {
      && machine.pump.io == ioCommon.State() && machine.open == socketOpen && machine.deflt == defaultDestEndp
      && (if inHandler then |machine.frames| == 1 && machine.frames[0].MsgHandler? else machine.frames == [])
    }

    constructor (endp: E)
      ensures Valid() && machine == FreshUdp(endp)
      ensures fresh(ioCommon) && fresh(ioCommon.outq) && fresh(entity)
    {
      ioCommon := new IoCommon();
      entity := new NetEntityCommon();
      socketOpen, defaultDestEndp, byteVec, maxSize, inHandler := false, endp, [], 0, false;
      machine := FreshUdp(endp);
    }

    /** `dest` and `size` are what the open callback passes to start_io. */
    method Start(cbs: C, openOk: bool, dest: Option<E>, size: Option<nat>) returns (ok: bool)
      requires Valid()
      modifies this, ioCommon, entity
      ensures Valid() && (ok <==> !old(entity.started) && openOk)
      ensures old(entity.started) || openOk ==> machine == UdpStep(old(machine), UdpEvent.Start(openOk, dest, size.Some?))
      ensures !old(entity.started) && !openOk ==> machine == Settle(UdpStep(old(machine), UdpEvent.Start(openOk, dest, size.Some?)), old(ioCommon.ioStarted))
      ensures old(entity.started) ==> machine == old(machine) && entity.callbacks == old(entity.callbacks)
      ensures !old(entity.started) ==> entity.callbacks == Some(cbs)
      ensures ok ==> OpenedFrom(old(machine), dest, size.Some?, machine)
      ensures !old(entity.started) && !openOk ==>
                FailedFrom(old(machine).(entity := true, gen := old(machine.gen) + 1), SystemError, machine)
    {
      ok := entity.Start(cbs);
      if !ok {
        return; // already started
      }
      if !openOk {
        OpenFailedSo(machine, dest, size.Some?);
        OpenError();
        return false;
      }
      Announce(dest, size);
    }

    /** The open failed: the error callback runs, and stop() follows. */
    method OpenError()
      requires entity.started && Linked() && !machine.entity
      modifies `socketOpen, `machine, ioCommon, entity
      ensures Valid() && entity.callbacks == old(entity.callbacks)
      ensures machine == StopQuiet(Emit(Begin(old(machine)), Failed(None, SystemError)))
    {
      machine := Begin(machine);
      ErrNotifyAndStop(SystemError);
    }

    /** The socket is open: the open callback runs, and calls start_io. */
    method Announce(dest: Option<E>, size: Option<nat>)
      requires entity.started && Linked() && !machine.entity
      modifies this, ioCommon
      ensures Valid() && inHandler == old(inHandler)
      ensures machine == UdpStep(old(machine), UdpEvent.Start(true, dest, size.Some?))
      ensures OpenedFrom(old(machine), dest, size.Some?, machine)
    {
      Opens(machine, dest, size.Some?);
      OpenedSo(machine, dest, size.Some?);
      socketOpen := true;
      machine := Emit(Begin(machine).(open := true), Opened(machine.gen + 1, 1));
      var _ := StartIo(dest, size);
    }


    method StartIo(dest: Option<E>, size: Option<nat>) returns (ok: bool)
      requires Valid()
      modifies this, ioCommon
      ensures Valid() && machine == BeginIo(old(machine), dest, size.Some?)
      ensures ok <==> !old(ioCommon.ioStarted)
      ensures !ok ==> machine == old(machine) && maxSize == old(maxSize) && byteVec == old(byteVec)
      ensures ok ==> ioCommon.ioStarted && defaultDestEndp == if dest.Some? then dest.value else old(defaultDestEndp)
      ensures ok && size.Some? ==> && maxSize == size.value == |byteVec|
                                   && machine.receives == old(machine.receives) + multiset{old(machine.gen)}
      ensures ok && size.None? ==> machine.receives == old(machine.receives)
      ensures inHandler == old(inHandler) && socketOpen == old(socketOpen)
    {
      BeginIoIs(machine, dest, size.Some?);
      ok := ioCommon.SetIoStarted();
      machine := BeginIo(machine, dest, size.Some?);
      if !ok {
        return;
      }
      if dest.Some? {
        defaultDestEndp := dest.value;
      }
      if size.Some? {
        maxSize := size.value;
        StartRead();
      }
    }

    /** The buffer of the receive is m_byte_vec, at its full size. */
    method StartRead()
      modifies `byteVec
      ensures |byteVec| == maxSize
    {
      byteVec := if maxSize <= |byteVec| then byteVec[..maxSize] else byteVec + seq(maxSize - |byteVec|, _ => 0 as Byte);
    }

    method StopIo() returns (ok: bool)
      requires Valid()
      modifies `socketOpen, `machine, ioCommon
      ensures Valid() && machine == StopIoQuiet(old(machine)) && (ok <==> old(ioCommon.ioStarted))
      ensures !ioCommon.ioStarted && socketOpen == (old(socketOpen) && !ok)
      ensures machine.trace == old(machine.trace) + if ok then [Failed(None, HandlerStopped), Closed(old(machine.gen), 0)] else []
    {
      ghost var next := StopIoQuiet(machine);
      StopIoQuietTrace(machine);
      ok := ioCommon.Stop();
      if ok {
        socketOpen := false;
      }
      machine := next;
    }

    method Stop() returns (ok: bool)
      requires Valid()
      modifies `socketOpen, `machine, ioCommon, entity
      ensures Valid() && machine == StopQuiet(old(machine)) && (ok <==> old(entity.started))
      ensures !ok ==> machine == old(machine)
      ensures !entity.started && entity.callbacks == old(entity.callbacks)
      ensures ok ==> && !ioCommon.ioStarted && socketOpen == (old(socketOpen) && !old(ioCommon.ioStarted))
                     && machine.trace == old(machine.trace) + StopTells(old(ioCommon.ioStarted), old(machine.gen))
                     && machine.receives == old(machine.receives) && machine.gen == old(machine.gen)
    {
      ok := entity.Stop();
      if !ok {
        return; // stop already called
      }
      StopQuietIs(machine);
      machine := machine.(entity := false);
      var _ := StopIo();
      machine := Emit(machine, Failed(None, EntityStopped));
    }

    /** err_notify and then stop(), as every failure ends. */
    method ErrNotifyAndStop(why: Reason)
      requires Valid()
      modifies `socketOpen, `machine, ioCommon, entity
      ensures Valid() && machine == StopQuiet(Emit(old(machine), Failed(None, why)))
      ensures FailedFrom(old(machine), why, machine) && machine.receives == old(machine.receives)
      ensures entity.callbacks == old(entity.callbacks)
    {
      FailsSo(machine, why);
      machine := Emit(machine, Failed(None, why));
      var _ := Stop();
    }

    /** The task posted by either send; `start` is the buffer and destination to give to the socket now. */
    method RunSend(buf: Buf, endp: Option<E>) returns (start: Option<(Buf, E)>)
      requires Valid()
      modifies this, ioCommon, ioCommon.outq
      ensures Valid() && machine == UdpStep(old(machine), Send(buf, endp))
      ensures machine.out.sentTo == old(machine.out.sentTo) + if start.Some? then [start.value] else []
      ensures start == if old(ioCommon.ioStarted) && !old(ioCommon.writeInProgress)
                       then Some((buf, if endp.Some? then endp.value else old(defaultDestEndp))) else None
      ensures ioCommon.outq.outputQueue == old(ioCommon.outq.outputQueue)
                + if old(ioCommon.ioStarted) && old(ioCommon.writeInProgress) then [Element(buf, endp)] else []
    {
      SentState(machine, Element(buf, endp));
      var now := ioCommon.StartWriteSetup(buf, endp);
      machine := OnSend(machine, Element(buf, endp));
      start := if now then Some((buf, if endp.Some? then endp.value else defaultDestEndp)) else None;
    }

    method HandleWrite(err: bool) returns (start: Option<(Buf, E)>)
      requires Valid() && |machine.pump.inFlight| > 0 && machine.pump.sent == 0
      modifies `socketOpen, `machine, ioCommon, ioCommon.outq, entity
      ensures Valid() && entity.callbacks == old(entity.callbacks)
      ensures !err ==> machine == UdpStep(old(machine), Written(true))
      ensures err ==> machine == Settle(UdpStep(old(machine), Written(false)), old(entity.started) && old(ioCommon.ioStarted))
      ensures machine.out.sentTo == old(machine.out.sentTo) + if start.Some? then [start.value] else []
      ensures !err ==> start.Some? == (old(ioCommon.ioStarted) && old(ioCommon.outq.outputQueue) != [])
      ensures !err && start.Some? ==> var e := old(ioCommon.outq.outputQueue)[0];
        start.value == (e.buf, if e.endp.Some? then e.endp.value else defaultDestEndp)
      ensures err ==> start == None && FailedFrom(old(machine), SystemError, machine)
    {
      if err {
        WriteFailedState(machine);
        WriteFails(machine);
        machine := WriteFailed(machine);
        ErrNotifyAndStop(SystemError);
        return None;
      }
      WrittenState(machine);
      WrittenOkStep(machine);
      machine := OnWritten(machine, true);
      var elem := ioCommon.GetNextElement();
      start := if elem.None? then None
        else Some((elem.value.buf, if elem.value.endp.Some? then elem.value.endp.value else defaultDestEndp));
    }

    /** handle_read up to the call of the message handler, which gets `msg`; `g` is the session of the receive. */
    method HandleRead(ghost g: nat, err: bool, numBytes: nat) returns (msg: Option<Buf>)
      requires Valid() && g in machine.receives && !inHandler && (!err ==> numBytes <= |byteVec|)
      modifies `socketOpen, `machine, `inHandler, ioCommon, entity
      ensures Valid() && (err ==> msg == None) && (!err ==> msg == Some(byteVec[..numBytes]))
      ensures !err ==> machine == UdpStep(old(machine), Received(g, true)) && inHandler && entity.started == old(entity.started)
      ensures err ==> machine == Settle(UdpStep(old(machine), Received(g, false)), old(entity.started) && old(ioCommon.ioStarted))
      ensures machine.receives == old(machine.receives) - multiset{g}
      ensures err ==> FailedFrom(old(machine), SystemError, machine)
    {
      if err {
        ReceiveFails(machine, g);
        machine := machine.(receives := machine.receives - multiset{g});
        ErrNotifyAndStop(SystemError);
        return None;
      }
      inHandler := true;
      machine := machine.(receives := machine.receives - multiset{g}, frames := [MsgHandler(g)]);
      msg := Some(byteVec[..numBytes]);
    }

    method AfterMsgHandler(ok: bool)
      requires Valid() && inHandler
      modifies `socketOpen, `machine, `inHandler, `byteVec, ioCommon, entity
      ensures Valid() && !inHandler
      ensures ok ==> machine == UdpStep(old(machine), Return(true))
      ensures !ok ==> machine == Settle(UdpStep(old(machine), Return(false)), old(entity.started) && old(ioCommon.ioStarted))
      ensures ok ==> && machine.receives == old(machine.receives) + multiset{old(machine.gen)} && |byteVec| == maxSize
                     && entity.started == old(entity.started) && machine.trace == old(machine.trace)
      ensures !ok ==> FailedFrom(old(machine), MessageHandlerTerminated, machine) && machine.receives == old(machine.receives)
    {
      assert machine.frames[1..] == [];
      if ok {
        QuietReturn(machine, true);
      } else {
        HandlerFails(machine);
      }
      inHandler := false;
      machine := machine.(frames := []);
      if !ok {
        ErrNotifyAndStop(MessageHandlerTerminated);
        return;
      }
      machine := machine.(receives := machine.receives + multiset{machine.gen});
      StartRead();
    }
  }
}
