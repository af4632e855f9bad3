/** The handlers inside the acceptor and connector machines are the TCP handler (include/net_ip/detail/tcp_io.hpp): what
    those machines keep of a handler is what an owner can see of the handler's own machine, step for step. */
module HandlerViews {
  import opened Bytes
  import opened NetEntity
  import opened StreamReader
  import opened Framing
  import opened TcpHandler
  import Acceptor
  import Connector

  datatype View = View(started: bool, reading: bool, closed: bool)

  function Seen<F>(t: Tcp<F>): View {
    View(t.pump.io.started, t.active, !t.open)
  }

  function InConnector(s: Connector.Conn, h: nat): View {
    View(h in s.io.on, h in s.io.chain, h in s.io.shut)
  }

  function InAcceptor(s: Acceptor.Acc, h: nat): View {
    View(h in s.on, h in s.chain, h in s.begun)
  }

  /** The event that ends the read chain: a failed read, or a false message handler while that runs. */
  function EndEvent<F>(t: Tcp<F>): TcpEvent<F> {
    if t.reader.Some? && t.reader.value.busy then HandlerReturns(false) else ReadDone(false)
  }

  lemma EndsChain<F>(t: Tcp<F>)
    requires Accounts(t) && t.active
    ensures var u := TcpStep(t, EndEvent(t)); Seen(u) == View(false, false, true) && u.notes == t.notes + 1
  {
  }

  lemma FreshSeen<F>(resolved: bool, h: nat)
    ensures Accounts(FreshTcp<F>()) && !FreshTcp<F>().pump.io.started && !FreshTcp<F>().active
    ensures InConnector(Connector.FreshConn(resolved), h) == Seen(FreshTcp<F>()) && Connector.HandlersOk(Connector.FreshConn(resolved))
    ensures InAcceptor(Acceptor.FreshAcc(), h) == Seen(FreshTcp<F>())
    ensures Acceptor.LiveInv(Acceptor.FreshAcc()) && Acceptor.FlagInv(Acceptor.FreshAcc())
  {
  }

  // ----- in the connector -----

  /** What an event of the connector asks of handler `h`, whose own machine is in state `t`. */
  function ForConnector<F(0)>(s: Connector.Conn, ev: Connector.ConnEvent, h: nat, t: Tcp<F>, m: Mode<F>, fs: F): Option<TcpEvent<F>> {
    match ev
    case HandlerStartIo(g, err) => if g == h < s.io.next then Some(StartIo(m, fs, err)) else None
    case HandlerStopIo(g) => if g == h then Some(StopIo) else None
    case ChainEnds(g) => if g == h && t.active then Some(EndEvent(t)) else None
    case _ => if Connector.StopsHolding(s, ev, h) then Some(TcpEvent.Close) else None
  }

  function After<F>(t: Tcp<F>, ev: Option<TcpEvent<F>>): Tcp<F> {
    if ev.Some? then TcpStep(t, ev.value) else t
  }

  lemma StartInConnector<F(0)>(s: Connector.Conn, h: nat, err: bool, t: Tcp<F>, m: Mode<F>, fs: F)
    requires Accounts(t) && InConnector(s, h) == Seen(t) && h < s.io.next
    ensures var s', t' := Connector.OnStartIo(s, h, err), TcpStep(t, StartIo(m, fs, err));
      && InConnector(s', h) == Seen(t')
      && s'.trace == s.trace + if t'.notes > t.notes then [Failed(Some(h), SystemError)] else []
  {
  }

  lemma StopIoInConnector<F>(s: Connector.Conn, h: nat, t: Tcp<F>)
    requires Accounts(t) && InConnector(s, h) == Seen(t)
    ensures var s', t' := Connector.OnStopIo(s, h), TcpStep(t, StopIo);
      && InConnector(s', h) == Seen(t')
      && s'.trace == s.trace + if t'.notes > t.notes then [Failed(Some(h), HandlerStopped)] else []
  {
  }

  lemma EndInConnector<F>(s: Connector.Conn, h: nat, t: Tcp<F>)
    requires Accounts(t) && InConnector(s, h) == Seen(t) && t.active
    ensures var s', t' := Connector.OnChainEnd(s, h), TcpStep(t, EndEvent(t));
      InConnector(s', h) == Seen(t') && s'.trace == s.trace + [Failed(Some(h), SystemError)] && t'.notes == t.notes + 1
  {
    EndsChain(t);
  }

  /** Events about another handler leave this one alone. */
  lemma OtherInConnector(s: Connector.Conn, ev: Connector.ConnEvent, h: nat)
    requires (ev.HandlerStartIo? || ev.HandlerStopIo? || ev.ChainEnds?) && ev.h != h
    ensures InConnector(Connector.ConnStep(s, ev), h) == InConnector(s, h)
  {
  }

  /** A stop of the connector closes the handler it holds. */
  lemma CloseInConnector<F>(s: Connector.Conn, h: nat, t: Tcp<F>)
    requires InConnector(s, h) == Seen(t)
    ensures InConnector(Connector.StopConn(s), h)
         == Seen(if s.started && s.current == Some(h) then TcpStep(t, TcpEvent.Close) else t)
  {
  }

  lemma QuietReturn(s: Connector.Conn, throws: bool)
    requires |s.frames| > 0 && !s.frames[0].NotifyStop?
    ensures Connector.OnReturn(s, throws).io == s.io
  {
  }

  lemma ReturnInConnector<F>(s: Connector.Conn, throws: bool, h: nat, t: Tcp<F>)
    requires InConnector(s, h) == Seen(t) && |s.frames| > 0
    ensures var stops := Connector.StopsHolding(s, Connector.Return(throws), h);
      InConnector(Connector.OnReturn(s, throws), h) == Seen(if stops then TcpStep(t, TcpEvent.Close) else t)
  {
    if s.frames[0].NotifyStop? {
      CloseInConnector(s.(frames := s.frames[1..]), h, t);
    } else {
      QuietReturn(s, throws);
    }
  }

  /** One step of the connector is, for each of its handlers, the step of the TCP handler that it asks for. */
  lemma ConnectorStep<F(0)>(s: Connector.Conn, ev: Connector.ConnEvent, h: nat, t: Tcp<F>, m: Mode<F>, fs: F)
    requires Accounts(t) && InConnector(s, h) == Seen(t) && (h >= s.io.next ==> !t.pump.io.started && !t.active)
    ensures InConnector(Connector.ConnStep(s, ev), h) == Seen(After(t, ForConnector(s, ev, h, t, m, fs)))
  {
    if (ev.HandlerStartIo? || ev.HandlerStopIo? || ev.ChainEnds?) && ev.h != h {
      OtherInConnector(s, ev, h);
    } else if ev.HandlerStartIo? {
      if h < s.io.next {
        StartInConnector(s, h, ev.endpointError, t, m, fs);
      }
    } else if ev.HandlerStopIo? {
      StopIoInConnector(s, h, t);
    } else if ev.ChainEnds? {
      if t.active {
        EndInConnector(s, h, t);
      }
    } else if ev.Stop? {
      CloseInConnector(s.(calls := s.calls.(stops := s.calls.stops + if s.started then 1 else 0)), h, t);
    } else if ev.Return? {
      if |s.frames| > 0 {
        ReturnInConnector(s, ev.timerThrows, h, t);
      }
    } else {
      Connector.OperationReads(s, ev);
    }
  }

  lemma {:induction false} ConnectorRun<F(0)>(s: Connector.Conn, evs: seq<Connector.ConnEvent>, h: nat, t: Tcp<F>, m: Mode<F>, fs: F)
    returns (tevs: seq<TcpEvent<F>>)
    requires Accounts(t) && InConnector(s, h) == Seen(t) && (h >= s.io.next ==> !t.pump.io.started && !t.active)
    requires Connector.HandlersOk(s)
    ensures InConnector(Connector.ConnRun(s, evs), h) == Seen(TcpRun(t, tevs))
    decreases |evs|
  {
    if |evs| == 0 {
      tevs := [];
    } else {
      var asked := ForConnector(s, evs[0], h, t, m, fs);
      var u, v := Connector.ConnStep(s, evs[0]), After(t, asked);
      ConnectorStep(s, evs[0], h, t, m, fs);
      Connector.SoundStep(s, evs[0]);
      if asked.Some? {
        AccountsKept(t, asked.value);
      }
      var rest := ConnectorRun(u, evs[1..], h, v, m, fs);
      tevs := if asked.Some? then [asked.value] + rest else rest;
      assert asked.Some? ==> tevs[1..] == rest;
    }
  }

  /** In every run of the connector, what it keeps of a handler is what some run of the TCP handler shows. */
  lemma {:induction false} ConnectorHandlers<F(0)>(resolved: bool, evs: seq<Connector.ConnEvent>, h: nat, m: Mode<F>, fs: F)
    returns (tevs: seq<TcpEvent<F>>)
    ensures InConnector(Connector.ConnRun(Connector.FreshConn(resolved), evs), h) == Seen(TcpRun(FreshTcp<F>(), tevs))
  {
    var t := FreshTcp<F>();
    FreshSeen<F>(resolved, h);
    tevs := ConnectorRun(Connector.FreshConn(resolved), evs, h, t, m, fs);
  }

  // ----- in the acceptor -----

  lemma StartInAcceptor<F(0)>(s: Acceptor.Acc, h: nat, err: bool, t: Tcp<F>, m: Mode<F>, fs: F)
    requires Accounts(t) && InAcceptor(s, h) == Seen(t) && h < s.next
    ensures var s', t' := Acceptor.AccStep(s, Acceptor.HandlerStartIo(h, err)), TcpStep(t, StartIo(m, fs, err));
      && InAcceptor(s', h) == Seen(t')
      && s'.trace == s.trace + if t'.notes > t.notes then [Failed(Some(h), SystemError)] else []
  {
  }

  lemma StopIoInAcceptor<F>(s: Acceptor.Acc, h: nat, t: Tcp<F>)
    requires Accounts(t) && InAcceptor(s, h) == Seen(t)
    ensures var s', t' := Acceptor.AccStep(s, Acceptor.HandlerStopIo(h)), TcpStep(t, StopIo);
      && InAcceptor(s', h) == Seen(t')
      && s'.trace == s.trace + if t'.notes > t.notes then [Failed(Some(h), HandlerStopped)] else []
  {
  }

  lemma EndInAcceptor<F>(s: Acceptor.Acc, h: nat, t: Tcp<F>)
    requires Accounts(t) && InAcceptor(s, h) == Seen(t) && t.active
    ensures var s', t' := Acceptor.AccStep(s, Acceptor.ChainEnds(h)), TcpStep(t, EndEvent(t));
      InAcceptor(s', h) == Seen(t') && s'.trace == s.trace + [Failed(Some(h), SystemError)] && t'.notes == t.notes + 1
  {
    EndsChain(t);
  }

  /** The loop of stop() up to its next callback: the first started handler of the list is asked to stop_io. */
  lemma {:induction false} LoopInAcceptor<F>(s: Acceptor.Acc, rest: seq<nat>, h: nat, t: Tcp<F>) returns (stops: bool)
    requires Accounts(t) && InAcceptor(s, h) == Seen(t)
    ensures InAcceptor(Acceptor.LoopOn(s, rest), h) == Seen(if stops then TcpStep(t, StopIo) else t)
    decreases |rest|
  {
    if |rest| == 0 {
      stops := false;
    } else if rest[0] in s.on {
      stops := rest[0] == h;
    } else {
      stops := LoopInAcceptor(s, rest[1..], h, t);
    }
  }

  lemma ReturnInAcceptor<F>(s: Acceptor.Acc, h: nat, t: Tcp<F>) returns (stops: bool)
    requires Accounts(t) && InAcceptor(s, h) == Seen(t)
    ensures InAcceptor(Acceptor.ReturnFrom(s), h) == Seen(if stops then TcpStep(t, StopIo) else t)
  {
    stops := false;
    if |s.frames| > 0 {
      var u := s.(frames := s.frames[1..]);
      if s.frames[0].StopLoop? {
        stops := LoopInAcceptor(u, s.frames[0].rest, h, t);
      } else if s.frames[0].StopAfterError? && s.started {
        stops := LoopInAcceptor(u.(started := false), u.live, h, t);
      }
    }
  }

  lemma OtherInAcceptor(s: Acceptor.Acc, ev: Acceptor.AccEvent, h: nat)
    requires (ev.HandlerStartIo? || ev.HandlerStopIo? || ev.ChainEnds?) && ev.h != h
    ensures InAcceptor(Acceptor.AccStep(s, ev), h) == InAcceptor(s, h)
  {
  }

  /** One step of the acceptor is, for each of its handlers, at most one step of the TCP handler. */
  lemma AcceptorStep<F(0)>(s: Acceptor.Acc, ev: Acceptor.AccEvent, h: nat, t: Tcp<F>, m: Mode<F>, fs: F)
    returns (asked: Option<TcpEvent<F>>)
    requires Accounts(t) && InAcceptor(s, h) == Seen(t) && (h >= s.next ==> !t.pump.io.started && !t.active)
    ensures InAcceptor(Acceptor.AccStep(s, ev), h) == Seen(After(t, asked))
    ensures ev.HandlerStartIo? && ev.h == h < s.next ==> asked == Some(StartIo(m, fs, ev.endpointError))
    ensures ev.HandlerStopIo? && ev.h == h ==> asked == Some(StopIo)
    ensures ev.ChainEnds? && ev.h == h && t.active ==> asked == Some(EndEvent(t))
  {
    asked := None;
    if ev.HandlerStartIo? || ev.HandlerStopIo? || ev.ChainEnds? {
      if ev.h != h {
        OtherInAcceptor(s, ev, h);
      } else if ev.HandlerStartIo? {
        if h < s.next {
          StartInAcceptor(s, h, ev.endpointError, t, m, fs);
          asked := Some(StartIo(m, fs, ev.endpointError));
        }
      } else if ev.HandlerStopIo? {
        StopIoInAcceptor(s, h, t);
        asked := Some(StopIo);
      } else if t.active {
        EndInAcceptor(s, h, t);
        asked := Some(EndEvent(t));
      }
    } else if ev.Stop? {
      if s.started {
        var stops := LoopInAcceptor(s.(started := false), s.live, h, t);
        asked := if stops then Some(StopIo) else None;
      }
    } else if ev.Return? {
      var stops := ReturnInAcceptor(s, h, t);
      asked := if stops then Some(StopIo) else None;
    }
  }

  lemma {:induction false} AcceptorRun<F(0)>(s: Acceptor.Acc, evs: seq<Acceptor.AccEvent>, h: nat, t: Tcp<F>, m: Mode<F>, fs: F)
    returns (tevs: seq<TcpEvent<F>>)
    requires Accounts(t) && InAcceptor(s, h) == Seen(t)
    requires Acceptor.LiveInv(s) && Acceptor.FlagInv(s)
    ensures InAcceptor(Acceptor.AccRun(s, evs), h) == Seen(TcpRun(t, tevs))
    decreases |evs|
  {
    if |evs| == 0 {
      tevs := [];
    } else {
      var asked := AcceptorStep(s, evs[0], h, t, m, fs);
      var u, v := Acceptor.AccStep(s, evs[0]), After(t, asked);
      Acceptor.LiveStep(s, evs[0]);
      Acceptor.FlagStep(s, evs[0]);
      if asked.Some? {
        AccountsKept(t, asked.value);
      }
      var rest := AcceptorRun(u, evs[1..], h, v, m, fs);
      tevs := if asked.Some? then [asked.value] + rest else rest;
      assert asked.Some? ==> tevs[1..] == rest;
    }
  }

  /** In every run of the acceptor, what it keeps of a handler is what some run of the TCP handler shows. */
  lemma {:induction false} AcceptorHandlers<F(0)>(evs: seq<Acceptor.AccEvent>, h: nat, m: Mode<F>, fs: F) returns (tevs: seq<TcpEvent<F>>)
    ensures InAcceptor(Acceptor.AccRun(Acceptor.FreshAcc(), evs), h) == Seen(TcpRun(FreshTcp<F>(), tevs))
  {
    var t := FreshTcp<F>();
    FreshSeen<F>(true, h);
    tevs := AcceptorRun(Acceptor.FreshAcc(), evs, h, t, m, fs);
  }
}
