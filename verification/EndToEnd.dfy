/** Two TCP handlers joined by an ideal byte FIFO: what the sender accepts is what the receiver delivers. */
module EndToEnd {
  import opened Bytes
  import opened OutQueue
  import opened WritePump
  import opened Framing
  import opened StreamReader
  import opened TcpHandler
  import VarLen
  import TextFraming

  datatype Net<!F, !G> = Net(snd: Tcp<G>, rcv: Tcp<F>)

  datatype NetEvent<!F, !G> =
    | AtSender(s: TcpEvent<G>)
    | AtReceiver(r: TcpEvent<F>)
    | Carry(k: nat)  // k more bytes of the sender's wire reach the pending read of the receiver

  /** The next `k` bytes of the wire that the handler has not consumed yet. */
  function Deliver<F>(s: Tcp<F>, wire: Buf, k: nat): Tcp<F> {
    if s.reader.Some? && |s.reader.value.consumed| + k <= |wire| then
      var at := |s.reader.value.consumed|;
      TcpStep(s, TcpEvent.Bytes(wire[at..at + k]))
    else s
  }

  function NetStep<F, G>(n: Net<F, G>, ev: NetEvent<F, G>): Net<F, G> {
    match ev
    case AtSender(s) => n.(snd := TcpStep(n.snd, s))
    case AtReceiver(r) => if r.Bytes? then n else n.(rcv := TcpStep(n.rcv, r))
    case Carry(k) => Net(n.snd, Deliver(n.rcv, n.snd.pump.wire, k))
  }

  function NetRun<F, G>(n: Net<F, G>, evs: seq<NetEvent<F, G>>): Net<F, G>
    decreases |evs|
  {
    if |evs| == 0 then n else NetRun(NetStep(n, evs[0]), evs[1..])
  }

  ghost predicate Behind<F>(r: Option<Reader<F>>, wire: Buf) {
    r.Some? ==> r.value.consumed <= wire
  }

  ghost predicate NetInv<F, G>(n: Net<F, G>) {
    && PumpInv(n.snd.pump)
    && ReaderOk(n.rcv.reader)
    && Behind(n.rcv.reader, n.snd.pump.wire)
  }

  lemma WireGrows<E>(p: Pump<E>, ev: PumpEvent<E>)
    ensures p.wire <= PumpStep(p, ev).wire
  {
  }

  lemma SenderStep<F>(s: Tcp<F>, ev: TcpEvent<F>)
    requires PumpInv(s.pump)
    ensures PumpInv(TcpStep(s, ev).pump) && s.pump.wire <= TcpStep(s, ev).pump.wire
  {
    TcpPumpStep(s, ev);
    if PumpOnly(ev) {
      PumpOnlyStep(s, ev);
      WireGrows(s.pump, PumpPart(ev));
    } else {
      FlagOnlyStep(s, ev);
    }
  }

  /** Apart from received bytes, no step changes what was consumed; a new reader has consumed nothing. */
  lemma ConsumedOnlyByBytes<F>(s: Tcp<F>, ev: TcpEvent<F>)
    ensures var t := TcpStep(s, ev);
      t.reader.Some? ==>
        || t.reader.value.consumed == []
        || (s.reader.Some? && t.reader.value.consumed == s.reader.value.consumed)
        || (s.reader.Some? && ev.Bytes? && t.reader.value.consumed == s.reader.value.consumed + ev.chunk)
  {
    if PumpOnly(ev) {
      PumpOnlyStep(s, ev);
    }
  }

  lemma ReceiverStep<F>(s: Tcp<F>, ev: TcpEvent<F>, wire: Buf)
    requires ReaderOk(s.reader) && Behind(s.reader, wire)
    requires ev.Bytes? && s.reader.Some? ==> s.reader.value.consumed + ev.chunk <= wire
    ensures ReaderOk(TcpStep(s, ev).reader) && Behind(TcpStep(s, ev).reader, wire)
  {
    TcpReaderStep(s, ev);
    ConsumedOnlyByBytes(s, ev);
  }

  lemma NextBytes(done: Buf, wire: Buf, k: nat)
    requires done <= wire && |done| + k <= |wire|
    ensures done + wire[|done|..|done| + k] <= wire
  {
  }

  lemma DeliverStep<F>(s: Tcp<F>, wire: Buf, k: nat)
    requires ReaderOk(s.reader) && Behind(s.reader, wire)
    ensures ReaderOk(Deliver(s, wire, k).reader) && Behind(Deliver(s, wire, k).reader, wire)
  {
    if s.reader.Some? && |s.reader.value.consumed| + k <= |wire| {
      var at := |s.reader.value.consumed|;
      var chunk := wire[at..at + k];
      NextBytes(s.reader.value.consumed, wire, k);
      assert s.reader.value.consumed + chunk <= wire;
      ReceiverStep(s, TcpEvent.Bytes(chunk), wire);
      assert Deliver(s, wire, k) == TcpStep(s, TcpEvent.Bytes(chunk));
    }
  }

  lemma NetStepInv<F, G>(n: Net<F, G>, ev: NetEvent<F, G>)
    requires NetInv(n)
    ensures NetInv(NetStep(n, ev))
  {
    if ev.Carry? {
      DeliverStep(n.rcv, n.snd.pump.wire, ev.k);
    } else if ev.AtSender? {
      SenderStep(n.snd, ev.s);
      var t := TcpStep(n.snd, ev.s);
      assert Behind(n.rcv.reader, t.pump.wire);
    } else if !ev.r.Bytes? {
      ReceiverStep(n.rcv, ev.r, n.snd.pump.wire);
    }
  }

  lemma {:induction false} NetRunInv<F, G>(n: Net<F, G>, evs: seq<NetEvent<F, G>>)
    requires NetInv(n)
    ensures NetInv(NetRun(n, evs))
    decreases |evs|
  {
    if |evs| > 0 {
      NetStepInv(n, evs[0]);
      NetRunInv(NetStep(n, evs[0]), evs[1..]);
    }
  }

  function FreshNet<F, G>(): Net<F, G> {
    Net(FreshTcp(), FreshTcp())
  }

  function Accepted<F, G>(n: Net<F, G>): seq<Buf> {
    Bufs(n.snd.pump.accepted)
  }

  lemma DeliveredPrefix<F>(r: Reader<F>, msgs: seq<Buf>)
    requires r.mode.Positive() && ReaderInv(r) && r.consumed <= Concat(msgs) && Parses(r.mode, r.first, msgs)
    ensures r.delivered <= msgs
    ensures r.consumed == Concat(msgs) && Quiescent(r) ==> r.delivered == msgs
  {
    RoundTripIff(r.mode, r.first, msgs);
    SplitPrefix(r.mode, r.first, r.consumed, Concat(msgs));
    if Quiescent(r) {
      QuiescentRemainder(r);
      assert r.delivered + [] == r.delivered;
    }
  }

  /** In every reachable state, under any interleaving of sends, partial and failed writes, reads, stops and closes on
      both sides: the receiver's handler has been given a prefix of the sends the sender accepted, and all of them once
      every accepted byte was received and processed; provided the accepted buffers are messages of the reader's mode. */
  lemma {:induction false} EndToEndPrefix<F, G>(evs: seq<NetEvent<F, G>>)
    ensures var n := NetRun(FreshNet<F, G>(), evs);
      n.rcv.reader.Some? ==>
        var r := n.rcv.reader.value;
        r.mode.Positive() && Parses(r.mode, r.first, Accepted(n)) ==>
          && r.delivered <= Accepted(n)
          && (r.consumed == Concat(Accepted(n)) && Quiescent(r) ==> r.delivered == Accepted(n))
  {
    var n := NetRun(FreshNet<F, G>(), evs);
    assert PumpInv(FreshPump<()>());
    NetRunInv(FreshNet<F, G>(), evs);
    if n.rcv.reader.Some? && n.rcv.reader.value.mode.Positive() {
      var r := n.rcv.reader.value;
      WirePrefix(n.snd.pump);
      if Parses(r.mode, r.first, Accepted(n)) {
        DeliveredPrefix(r, Accepted(n));
      }
    }
  }

  /** A header followed by a body of the length it announces, which is not zero. */
  ghost predicate IsVarLenMsg(buf: Buf) {
    2 < |buf| <= 2 + VarLen.MAX_BODY && buf == VarLen.Encode(buf[2..])
  }

  lemma VarLenParses(msgs: seq<Buf>)
    requires forall i :: 0 <= i < |msgs| ==> IsVarLenMsg(msgs[i])
    ensures Parses(VarLen.VarLenMode(), false, msgs)
  {
    var bodies := seq(|msgs|, i requires 0 <= i < |msgs| => msgs[i][2..]);
    forall i | 0 <= i < |bodies|
      ensures 0 < |bodies[i]| <= VarLen.MAX_BODY && VarLen.Encode(bodies[i]) == msgs[i]
    {
      assert IsVarLenMsg(msgs[i]);
    }
    assert VarLen.EncodeAll(bodies) == msgs;
    VarLen.EmptyOnlyLast(bodies);
    VarLen.ParsesIff(bodies, 0);
  }

  /** Variable length messages end to end. */
  lemma {:induction false} VarLenEndToEnd<G>(evs: seq<NetEvent<bool, G>>)
    ensures var n := NetRun(FreshNet<bool, G>(), evs);
      && n.rcv.reader.Some? && n.rcv.reader.value.mode == VarLen.VarLenMode() && !n.rcv.reader.value.first
      && (forall i :: 0 <= i < |Accepted(n)| ==> IsVarLenMsg(Accepted(n)[i]))
      ==> var r := n.rcv.reader.value;
        && r.delivered <= Accepted(n)
        && (r.consumed == Concat(Accepted(n)) && Quiescent(r) ==> r.delivered == Accepted(n))
  {
    var n := NetRun(FreshNet<bool, G>(), evs);
    EndToEndPrefix(evs);
    if forall i :: 0 <= i < |Accepted(n)| ==> IsVarLenMsg(Accepted(n)[i]) {
      VarLenParses(Accepted(n));
    }
  }

  /** Delimited text messages end to end. */
  lemma {:induction false} TextEndToEnd<G>(evs: seq<NetEvent<(), G>>, bodies: seq<Buf>, d: Buf)
    requires |d| > 0 && forall i :: 0 <= i < |bodies| ==> TextFraming.Clean(bodies[i], d)
    ensures var n := NetRun(FreshNet<(), G>(), evs);
      && n.rcv.reader.Some? && n.rcv.reader.value.mode == TextFraming.TextMode(d)
      && Accepted(n) == TextFraming.TerminateAll(bodies, d)
      ==> var r := n.rcv.reader.value;
        && r.delivered <= Accepted(n)
        && (r.consumed == Concat(Accepted(n)) && Quiescent(r) ==> r.delivered == Accepted(n))
  {
    EndToEndPrefix(evs);
    TextFraming.TextParsesIff(bodies, d);
    var n := NetRun(FreshNet<(), G>(), evs);
    assert n.rcv.reader.Some? ==> n.rcv.reader.value.first == ();
  }

  // ----- nothing stays behind -----

  lemma {:induction false} NetRunAppend<F, G>(n: Net<F, G>, a: seq<NetEvent<F, G>>, b: seq<NetEvent<F, G>>)
    ensures NetRun(n, a + b) == NetRun(NetRun(n, a), b)
    decreases |a|
  {
    if |a| == 0 {
      assert a + b == b;
    } else {
      assert (a + b)[1..] == a[1..] + b;
      NetRunAppend(NetStep(n, a[0]), a[1..], b);
    }
  }

  /** Bytes on the wire, successful completions, arriving bytes, and a message handler that goes on. */
  predicate Advances<F, G>(ev: NetEvent<F, G>) {
    match ev
    case AtSender(s) => s.Wire? || s == TcpEvent.Written(true)
    case AtReceiver(r) => r == TcpEvent.ReadDone(true) || r == TcpEvent.HandlerReturns(true)
    case Carry(_) => true
  }

  predicate AllAdvance<F, G>(evs: seq<NetEvent<F, G>>) {
    forall i :: 0 <= i < |evs| ==> Advances(evs[i])
  }

  /** The sender's current write reaches the wire and completes. */
  lemma CompleteWrite<F, G>(n: Net<F, G>) returns (evs: seq<NetEvent<F, G>>)
    requires PumpInv(n.snd.pump) && n.snd.pump.inFlight != []
    ensures AllAdvance(evs) && NetRun(n, evs) == n.(snd := n.snd.(pump := CompleteOne(n.snd.pump)))
  {
    var p := n.snd.pump;
    TransmitRest(p);
    var k := |p.inFlight[0].buf| - p.sent;
    evs := [AtSender(TcpEvent.Wire(k)), AtSender(TcpEvent.Written(true))];
    PumpOnlyStep(n.snd, TcpEvent.Wire(k));
    var m := n.(snd := n.snd.(pump := PumpStep(p, Transmit(k))));
    PumpOnlyStep(m.snd, TcpEvent.Written(true));
    assert evs[1..] == [AtSender(TcpEvent.Written(true))] && evs[1..][1..] == [];
    assert NetRun(n, evs) == NetRun(m, evs[1..]) == NetRun(NetStep(m, evs[1]), []);
  }

  /** A started healthy sender can put everything accepted on the wire. */
  lemma {:induction false} WriteAll<F, G>(n: Net<F, G>) returns (evs: seq<NetEvent<F, G>>)
    requires PumpInv(n.snd.pump) && n.snd.pump.io.started && !n.snd.pump.lost
    ensures var t := NetRun(n, evs);
      && t.rcv == n.rcv && PumpInv(t.snd.pump) && t.snd.pump.accepted == n.snd.pump.accepted
      && t.snd.pump.wire == Concat(Accepted(n)) && AllAdvance(evs)
    decreases |n.snd.pump.inFlight| + |n.snd.pump.io.outq.elems|
  {
    IdleIff(n.snd.pump);
    if n.snd.pump.inFlight == [] {
      evs := [];
    } else {
      var first := CompleteWrite(n);
      CompleteOneEffect(n.snd.pump);
      var rest := WriteAll(NetRun(n, first));
      evs := first + rest;
      NetRunAppend(n, first, rest);
    }
  }

  /** How much the receiver can still do with the bytes it has consumed. */
  function Undone<F>(r: Reader<F>): int {
    2 * (|r.consumed| - Used(r)) + if r.busy then 1 else 0
  }

  lemma UsedConsumed<F>(r: Reader<F>)
    requires r.mode.Positive() && ReaderInv(r)
    ensures Used(r) <= |r.consumed|
  {
  }

  lemma ReadTakes<F>(r: Reader<F>) returns (n: nat)
    requires Ready(r)
    ensures var t := HandleRead(r); t.took == r.took + [n] && t.consumed == r.consumed && t.mode == r.mode && t.first == r.first
  {
    n := match r.mode case Framed(_, _) => r.size - r.start case Delimited(d) => Find(d, r.vec).value + |d|;
  }

  lemma MoreUsed<F>(r: Reader<F>, t: Reader<F>, n: nat)
    requires r.mode.Positive() && t.mode == r.mode && BatchInv(r) && BatchInv(t) && t.took == r.took + [n]
    ensures Used(t) > Used(r)
  {
    assert t.took[|r.took|] == n;
    SumLast(r.took, n);
  }

  /** Every completed read and every return of the message handler leaves less to do. */
  lemma ReadProgress<F>(r: Reader<F>)
    requires r.mode.Positive() && ReaderInv(r) && Ready(r)
    ensures var t := HandleRead(r);
      && ReaderInv(t) && Undone(t) < Undone(r) && t.consumed == r.consumed && t.mode == r.mode && t.first == r.first
  {
    ReadStepInv(r, ReadOk);
    var n := ReadTakes(r);
    MoreUsed(r, HandleRead(r), n);
  }

  lemma ReturnProgress<F>(r: Reader<F>)
    requires r.mode.Positive() && ReaderInv(r) && r.busy
    ensures var t := AfterHandler(r);
      && ReaderInv(t) && Undone(t) < Undone(r) && t.consumed == r.consumed && t.mode == r.mode && t.first == r.first
  {
    ReadStepInv(r, HandlerTrue);
    assert AfterHandler(r).took == r.took;
  }

  /** `t` is what the receiver of `n` has come to, nothing else having moved, with more consumed or less to do. */
  ghost predicate Onward<F, G>(n: Net<F, G>, t: Net<F, G>) {
    && n.rcv.reader.Some? && t.rcv.reader.Some? && t.snd == n.snd && NetInv(t) && t.rcv.active
    && var r, u := n.rcv.reader.value, t.rcv.reader.value;
    && u.mode == r.mode && u.first == r.first && r.consumed <= u.consumed
    && (|u.consumed| > |r.consumed| || Undone(u) < Undone(r))
  }

  ghost predicate CanReceive<F, G>(n: Net<F, G>) {
    NetInv(n) && n.rcv.active && n.rcv.reader.Some? && n.rcv.reader.value.mode.Positive()
  }

  lemma HandlerMoves<F, G>(n: Net<F, G>)
    requires CanReceive(n) && n.rcv.reader.value.busy
    ensures Onward(n, NetStep(n, AtReceiver(TcpEvent.HandlerReturns(true))))
  {
    ReturnProgress(n.rcv.reader.value);
    ContinueReading(n.rcv);
  }

  lemma ReadMoves<F, G>(n: Net<F, G>)
    requires CanReceive(n) && Ready(n.rcv.reader.value)
    ensures Onward(n, NetStep(n, AtReceiver(TcpEvent.ReadDone(true))))
  {
    ReadProgress(n.rcv.reader.value);
    CompleteRead(n.rcv);
  }

  lemma TakesByte<F>(r: Reader<F>, chunk: Buf)
    requires BufferInv(r) && Quiescent(r) && |chunk| == 1
    ensures Takes(r, chunk)
  {
  }

  lemma ByteMoves<F, G>(n: Net<F, G>)
    requires CanReceive(n) && Quiescent(n.rcv.reader.value) && |n.rcv.reader.value.consumed| < |n.snd.pump.wire|
    ensures Onward(n, NetStep(n, Carry(1)))
  {
    var r, wire := n.rcv.reader.value, n.snd.pump.wire;
    var chunk := wire[|r.consumed|..|r.consumed| + 1];
    TakesByte(r, chunk);
    ReceiveBytes(n.rcv, chunk);
    NetStepInv(n, Carry(1));
    var u := Take(r, chunk);
    assert u == r.(vec := r.vec + chunk, consumed := r.consumed + chunk);
    assert NetStep(n, Carry(1)) == Net(n.snd, n.rcv.(reader := Some(u)));
  }

  /** The next thing the receiver can do, if there is one: its handler returns, its read completes, or a byte arrives. */
  lemma NextStep<F, G>(n: Net<F, G>) returns (ev: NetEvent<F, G>)
    requires CanReceive(n) && (!Quiescent(n.rcv.reader.value) || n.rcv.reader.value.consumed != n.snd.pump.wire)
    ensures Advances(ev) && Onward(n, NetStep(n, ev))
  {
    var r := n.rcv.reader.value;
    if r.busy {
      HandlerMoves(n);
      ev := AtReceiver(TcpEvent.HandlerReturns(true));
    } else if Ready(r) {
      ReadMoves(n);
      ev := AtReceiver(TcpEvent.ReadDone(true));
    } else {
      ByteMoves(n);
      ev := Carry(1);
    }
  }

  /** The receiver can consume the whole wire and handle it. */
  lemma {:induction false} ReceiveAll<F, G>(n: Net<F, G>) returns (evs: seq<NetEvent<F, G>>)
    requires CanReceive(n)
    ensures var t := NetRun(n, evs);
      && t.snd == n.snd && NetInv(t) && t.rcv.active && t.rcv.reader.Some?
      && var r, u := n.rcv.reader.value, t.rcv.reader.value;
      && u.mode == r.mode && u.first == r.first && Quiescent(u) && u.consumed == n.snd.pump.wire && AllAdvance(evs)
    decreases |n.snd.pump.wire| - |n.rcv.reader.value.consumed|, Undone(n.rcv.reader.value)
  {
    var r := n.rcv.reader.value;
    UsedConsumed(r);
    if Quiescent(r) && r.consumed == n.snd.pump.wire {
      evs := [];
    } else {
      var ev := NextStep(n);
      var t := NetStep(n, ev);
      assert |t.rcv.reader.value.consumed| <= |n.snd.pump.wire|;
      UsedConsumed(t.rcv.reader.value);
      var rest := ReceiveAll(t);
      evs := [ev] + rest;
      assert evs[1..] == rest;
    }
  }

  /** The sender is started and lost no completion, the receiver reads, and what was accepted are messages of its mode. */
  ghost predicate Flowing<F, G>(n: Net<F, G>) {
    && n.snd.pump.io.started && !n.snd.pump.lost
    && n.rcv.active && n.rcv.reader.Some? && n.rcv.reader.value.mode.Positive()
    && Parses(n.rcv.reader.value.mode, n.rcv.reader.value.first, Accepted(n))
  }

  lemma AllArrives<F, G>(n: Net<F, G>) returns (evs: seq<NetEvent<F, G>>)
    requires NetInv(n) && Flowing(n)
    ensures var t := NetRun(n, evs);
      AllAdvance(evs) && Accepted(t) == Accepted(n) && t.rcv.reader.Some? && t.rcv.reader.value.delivered == Accepted(n)
  {
    var sent := WriteAll(n);
    var m := NetRun(n, sent);
    NetRunInv(n, sent);
    var received := ReceiveAll(m);
    evs := sent + received;
    NetRunAppend(n, sent, received);
    DeliveredPrefix(NetRun(m, received).rcv.reader.value, Accepted(n));
  }

  lemma {:induction false} ReachableInv<F, G>(before: seq<NetEvent<F, G>>)
    ensures NetInv(NetRun(FreshNet<F, G>(), before))
  {
    assert PumpInv(FreshPump<()>());
    NetRunInv(FreshNet<F, G>(), before);
  }

  /** From every reachable state in which the sender is started and lost no completion and the receiver reads: whatever was
      accepted can still arrive, by nothing but bytes on the wire, write completions, arriving bytes, completed reads and
      returns of the message handler, and then all of it has been delivered. */
  lemma {:induction false} EverythingCanArrive<F, G>(before: seq<NetEvent<F, G>>) returns (evs: seq<NetEvent<F, G>>)
    requires Flowing(NetRun(FreshNet<F, G>(), before))
    ensures var n := NetRun(FreshNet<F, G>(), before);
      var t := NetRun(n, evs);
      && AllAdvance(evs) && Accepted(t) == Accepted(n)
      && t.rcv.reader.Some? && t.rcv.reader.value.delivered == Accepted(n)
  {
    ReachableInv<F, G>(before);
    evs := AllArrives(NetRun(FreshNet<F, G>(), before));
  }
}
