/** The write pump: `send`, `start_write` and `handle_write` of the TCP and UDP handlers on top of `io_common`.

    The outside world is a socket with outstanding `async_write` operations (a sequence, so that more than one can
    be expressed) and the wire they write to. `accepted`, `handed`, `written`, `failed` and `lost` are history. */
module WritePump {
  import opened Bytes
  import opened OutQueue
  import opened IoState

  datatype Pump<+E> = Pump(
    io: Io<E>,
    inFlight: seq<Element<E>>,  // outstanding async_write operations, oldest first
    sent: nat,                  // bytes of the oldest one that reached the wire
    wire: Buf,
    accepted: seq<Element<E>>,  // sends whose posted task ran while the handler was started
    handed: seq<Element<E>>,    // buffers given to async_write
    written: seq<Element<E>>,   // writes completed without error
    failed: seq<Element<E>>,    // writes completed with an error
    lost: bool                  // some completion carried an error or found the handler stopped
  )

  datatype PumpEvent<+E> =
    | SetStarted
    | Stop
    | RunSend(e: Element<E>)  // the task posted by send
    | Transmit(k: nat)        // the socket takes k more bytes of the oldest write
    | WriteDone(ok: bool)     // completion of the oldest write

  function FreshPump<E>(): Pump<E> {
    Pump(FreshIo(), [], 0, [], [], [], [], [], false)
  }

  function StartWrite<E>(p: Pump<E>, e: Element<E>): Pump<E> {
    p.(inFlight := p.inFlight + [e], handed := p.handed + [e], sent := if |p.inFlight| == 0 then 0 else p.sent)
  }

  /** An error-free completion means that every byte was written. */
  predicate CanComplete<E>(p: Pump<E>, ok: bool) {
    |p.inFlight| > 0 && (ok ==> p.sent == |p.inFlight[0].buf|)
  }

  function PumpSend<E>(p: Pump<E>, e: Element<E>): Pump<E> {
    var (start, io) := WriteSetup(p.io, e);
    var q := p.(io := io, accepted := if p.io.started then p.accepted + [e] else p.accepted);
    if start then StartWrite(q, e) else q
  }

  function PumpDone<E>(p: Pump<E>, ok: bool): Pump<E>
    requires CanComplete(p, ok)
  {
    var q := p.(inFlight := p.inFlight[1..], lost := p.lost || !ok || !p.io.started);
    if !ok then q.(failed := p.failed + [p.inFlight[0]])
    else
      var (next, io) := TakeNext(p.io);
      var r := q.(io := io, written := p.written + [p.inFlight[0]], sent := 0);
      if next.Some? then StartWrite(r, next.value) else r
  }

  function PumpTransmit<E>(p: Pump<E>, k: nat): Pump<E> {
    if |p.inFlight| > 0 && p.sent + k <= |p.inFlight[0].buf|
    then p.(wire := p.wire + p.inFlight[0].buf[p.sent..p.sent + k], sent := p.sent + k)
    else p
  }

  function Raise<E>(p: Pump<E>): Pump<E> {
    p.(io := TryStart(p.io).1)
  }

  function Lower<E>(p: Pump<E>): Pump<E> {
    p.(io := TryStop(p.io).1)
  }

  /** One event; an event that cannot happen leaves the state unchanged. */
  function PumpStep<E>(p: Pump<E>, ev: PumpEvent<E>): Pump<E> {
    match ev
    case SetStarted => Raise(p)
    case Stop => Lower(p)
    case RunSend(e) => PumpSend(p, e)
    case Transmit(k) => PumpTransmit(p, k)
    case WriteDone(ok) => if CanComplete(p, ok) then PumpDone(p, ok) else p
  }

  function PumpRun<E>(p: Pump<E>, evs: seq<PumpEvent<E>>): Pump<E>
    decreases |evs|
  {
    if |evs| == 0 then p else PumpRun(PumpStep(p, evs[0]), evs[1..])
  }

  function Bufs<E>(es: seq<Element<E>>): seq<Buf> {
    seq(|es|, i requires 0 <= i < |es| => es[i].buf)
  }

  /** The part of the current (or failed) write that is on the wire. */
  function Partial<E>(p: Pump<E>): Buf {
    var cur := p.failed + p.inFlight;
    if |cur| > 0 && p.sent <= |cur[0].buf| then cur[0].buf[..p.sent] else []
  }

  ghost predicate FlowInv<E>(p: Pump<E>) {
    // at most one write outstanding, and then the flag is set
    && |p.inFlight| <= 1
    && (p.inFlight != [] ==> p.io.writing)
    // something queues only behind a write, and a queue without one is stuck
    && (!p.io.writing ==> p.io.outq.elems == [])
    && (p.io.writing && p.inFlight == [] <==> p.lost)
    // first in, first out, nothing dropped and nothing duplicated
    && p.accepted == p.handed + p.io.outq.elems
    && p.handed == p.written + p.failed + p.inFlight
    && |p.failed| <= 1 && (p.failed != [] ==> p.lost)
    && Exact(p.io.outq)
  }

  /** The wire carries the written buffers and the transmitted part of the current or failed one. */
  ghost predicate WireInv<E>(p: Pump<E>) {
    && (p.failed + p.inFlight != [] ==> p.sent <= |(p.failed + p.inFlight)[0].buf|)
    && p.wire == Concat(Bufs(p.written)) + Partial(p)
  }

  ghost predicate PumpInv<E>(p: Pump<E>) {
    FlowInv(p) && WireInv(p)
  }

  lemma BufsAppend<E>(a: seq<Element<E>>, b: seq<Element<E>>)
    ensures Bufs(a + b) == Bufs(a) + Bufs(b)
  {
  }

  lemma PumpSendFlow<E>(p: Pump<E>, e: Element<E>)
    requires FlowInv(p)
    ensures FlowInv(PumpSend(p, e))
  {
    AddExact(p.io.outq, e);
  }

  lemma PumpSendWire<E>(p: Pump<E>, e: Element<E>)
    requires PumpInv(p)
    ensures WireInv(PumpSend(p, e))
  {
    var q := PumpSend(p, e);
    if q.inFlight == p.inFlight {
      assert Partial(q) == Partial(p);
    } else {
      assert p.failed + p.inFlight == [];
      assert q.failed + q.inFlight == [e] && q.sent == 0;
      assert Partial(p) == [] == Partial(q);
    }
  }

  lemma PumpDoneFlow<E>(p: Pump<E>, ok: bool)
    requires FlowInv(p) && CanComplete(p, ok)
    ensures FlowInv(PumpDone(p, ok))
  {
    assert p.inFlight == [p.inFlight[0]] && p.failed == [];
    NextExact(p.io.outq);
  }

  lemma PumpDoneWire<E>(p: Pump<E>, ok: bool)
    requires PumpInv(p) && CanComplete(p, ok)
    ensures WireInv(PumpDone(p, ok))
  {
    var e := p.inFlight[0];
    var q := PumpDone(p, ok);
    assert p.failed + p.inFlight == [e];
    if ok {
      assert q.failed == [] && q.sent == 0;
      assert Partial(q) == [];
      assert e.buf[..|e.buf|] == e.buf;
      BufsAppend(p.written, [e]);
      assert Bufs([e]) == [e.buf];
      ConcatLast(Bufs(p.written), e.buf);
    } else {
      assert q.failed + q.inFlight == [e];
    }
  }

  lemma PumpDoneInv<E>(p: Pump<E>, ok: bool)
    requires PumpInv(p) && CanComplete(p, ok)
    ensures PumpInv(PumpDone(p, ok))
  {
    PumpDoneFlow(p, ok);
    PumpDoneWire(p, ok);
  }

  lemma PumpTransmitInv<E>(p: Pump<E>, k: nat)
    requires PumpInv(p)
    ensures PumpInv(PumpTransmit(p, k))
  {
    var q := PumpTransmit(p, k);
    if q != p {
      var b := p.inFlight[0].buf;
      assert p.failed + p.inFlight == p.inFlight == q.failed + q.inFlight;
      assert Partial(q) == Partial(p) + b[p.sent..p.sent + k] by {
        assert b[..p.sent] + b[p.sent..p.sent + k] == b[..p.sent + k];
      }
      assert q.wire == Concat(Bufs(q.written)) + Partial(q);
    }
  }

  lemma PumpStepInv<E>(p: Pump<E>, ev: PumpEvent<E>)
    requires PumpInv(p)
    ensures PumpInv(PumpStep(p, ev))
  {
    match ev {
      case RunSend(e) =>
        PumpSendFlow(p, e);
        PumpSendWire(p, e);
      case WriteDone(ok) =>
        if CanComplete(p, ok) {
          PumpDoneInv(p, ok);
        }
      case Transmit(k) => PumpTransmitInv(p, k);
      case _ =>
    }
  }

  /** Starting and stopping move the flag and nothing else. */
  lemma FlagKeeps<E>(p: Pump<E>, started: bool)
    requires PumpInv(p)
    ensures PumpInv(p.(io := p.io.(started := started)))
  {
    assert Partial(p.(io := p.io.(started := started))) == Partial(p);
  }

  /** Every run of starts, stops, sends, completions, errors and restarts keeps the invariant. */
  lemma {:induction false} PumpRunInv<E>(p: Pump<E>, evs: seq<PumpEvent<E>>)
    requires PumpInv(p)
    ensures PumpInv(PumpRun(p, evs))
    decreases |evs|
  {
    if |evs| > 0 {
      PumpStepInv(p, evs[0]);
      PumpRunInv(PumpStep(p, evs[0]), evs[1..]);
    }
  }

  lemma PartOfNext<E>(done: seq<Element<E>>, e: Element<E>, n: nat, all: seq<Element<E>>)
    requires |done| < |all| && all[..|done|] == done && all[|done|] == e
    requires n <= |e.buf|
    ensures Concat(Bufs(done)) + e.buf[..n] <= Concat(Bufs(all))
  {
    assert Bufs(done) + [e.buf] <= Bufs(all);
    ConcatLast(Bufs(done), e.buf);
    ConcatPrefix(Bufs(done) + [e.buf], Bufs(all));
  }

  lemma WirePrefix<E>(p: Pump<E>)
    requires PumpInv(p)
    ensures p.wire <= Concat(Bufs(p.accepted))
  {
    var cur := p.failed + p.inFlight;
    if cur == [] {
      assert p.written <= p.accepted;
      ConcatPrefix(Bufs(p.written), Bufs(p.accepted));
    } else {
      assert p.accepted[..|p.written|] == p.written && p.accepted[|p.written|] == cur[0];
      PartOfNext(p.written, cur[0], p.sent, p.accepted);
    }
  }

  /** Over all runs of a new handler: at most one socket write is outstanding; what was accepted is, in order, what
      was written, then failed (at most one), then in flight (at most one), then queued; the wire carries a prefix of
      the accepted bytes; and the counters are exact. */
  lemma {:induction false} PumpSafety<E>(evs: seq<PumpEvent<E>>)
    ensures var p := PumpRun(FreshPump<E>(), evs);
      && |p.inFlight| + |p.failed| <= 1
      && p.accepted == p.written + p.failed + p.inFlight + p.io.outq.elems
      && p.wire <= Concat(Bufs(p.accepted))
      && Exact(p.io.outq)
      && PumpInv(p)
  {
    PumpRunInv(FreshPump<E>(), evs);
    WirePrefix(PumpRun(FreshPump<E>(), evs));
  }

  predicate StartedAfter<E>(started: bool, ev: PumpEvent<E>) {
    ev.SetStarted? || (started && !ev.Stop?)
  }

  function AcceptedBy<E>(started: bool, ev: PumpEvent<E>): seq<Element<E>> {
    if ev.RunSend? && started then [ev.e] else []
  }

  /** The sends an application sees accepted: those whose task runs after a start and before the next stop. */
  function AcceptedSends<E>(started: bool, evs: seq<PumpEvent<E>>): seq<Element<E>>
    decreases |evs|
  {
    if |evs| == 0 then []
    else AcceptedBy(started, evs[0]) + AcceptedSends(StartedAfter(started, evs[0]), evs[1..])
  }

  lemma StepAccepts<E>(p: Pump<E>, ev: PumpEvent<E>)
    ensures PumpStep(p, ev).io.started == StartedAfter(p.io.started, ev)
    ensures PumpStep(p, ev).accepted == p.accepted + AcceptedBy(p.io.started, ev)
  {
  }

  lemma {:induction false} AcceptedIsWhatWasSent<E>(p: Pump<E>, evs: seq<PumpEvent<E>>)
    ensures PumpRun(p, evs).accepted == p.accepted + AcceptedSends(p.io.started, evs)
    decreases |evs|
  {
    if |evs| > 0 {
      StepAccepts(p, evs[0]);
      AcceptedIsWhatWasSent(PumpStep(p, evs[0]), evs[1..]);
    }
  }

  /** In a session without lost completions the flag says exactly that a write is outstanding, nothing failed, and
      a queue exists only behind a write. */
  lemma {:induction false} HealthySession<E>(evs: seq<PumpEvent<E>>)
    ensures var p := PumpRun(FreshPump<E>(), evs);
      !p.lost ==>
        && (p.io.writing <==> p.inFlight != [])
        && (p.io.outq.elems != [] ==> p.inFlight != [])
        && p.accepted == p.written + p.inFlight + p.io.outq.elems
  {
    PumpRunInv(FreshPump<E>(), evs);
  }

  /** The flag says a write is outstanding, but none is. */
  predicate Stuck<E>(p: Pump<E>) {
    p.io.writing && p.inFlight == []
  }

  lemma StuckStep<E>(p: Pump<E>, ev: PumpEvent<E>)
    requires Stuck(p)
    ensures var q := PumpStep(p, ev);
      && Stuck(q) && q.handed == p.handed && q.wire == p.wire
      && q.io.outq.elems == p.io.outq.elems + AcceptedBy(p.io.started, ev)
      && q.io.started == StartedAfter(p.io.started, ev)
  {
    match ev {
      case RunSend(e) =>
      case _ => assert AcceptedBy(p.io.started, ev) == [];
    }
  }

  /** From then on, in every run, restarts included, nothing more is handed to the socket, while sends are still
      accepted and pile up in the queue. */
  lemma {:induction false} StuckForever<E>(p: Pump<E>, evs: seq<PumpEvent<E>>)
    requires Stuck(p)
    ensures var q := PumpRun(p, evs);
      && Stuck(q) && q.handed == p.handed && q.wire == p.wire
      && q.io.outq.elems == p.io.outq.elems + AcceptedSends(p.io.started, evs)
    decreases |evs|
  {
    if |evs| > 0 {
      var q := PumpStep(p, evs[0]);
      StuckStep(p, evs[0]);
      StuckForever(q, evs[1..]);
      Assoc(p.io.outq.elems, AcceptedBy(p.io.started, evs[0]), AcceptedSends(q.io.started, evs[1..]));
    }
  }

  /** A pump is stuck exactly when some completion carried an error or found the handler stopped: neither clears
      the write flag. */
  lemma {:induction false} StuckIffLost<E>(evs: seq<PumpEvent<E>>)
    ensures var p := PumpRun(FreshPump<E>(), evs); Stuck(p) <==> p.lost
  {
    PumpRunInv(FreshPump<E>(), evs);
  }

  /** It happens: one write fails, and the next accepted send stays in the queue. */
  lemma WriteErrorSticks<E>(e: Element<E>)
    ensures var p := PumpStep(PumpStep(PumpStep(FreshPump<E>(), SetStarted), RunSend(e)), WriteDone(false));
      Stuck(p) && p.lost && p.failed == [e] && PumpStep(p, RunSend(e)).io.outq.elems == [e]
  {
  }

  /** Successful completion of the current write. */
  function CompleteOne<E>(p: Pump<E>): Pump<E> {
    if |p.inFlight| > 0 && p.sent <= |p.inFlight[0].buf|
    then PumpStep(PumpStep(p, Transmit(|p.inFlight[0].buf| - p.sent)), WriteDone(true))
    else p
  }

  function Complete<E>(p: Pump<E>, n: nat): Pump<E>
    decreases n
  {
    if n == 0 then p else Complete(CompleteOne(p), n - 1)
  }

  /** The rest of the current write reaches the wire. */
  lemma TransmitRest<E>(p: Pump<E>)
    requires PumpInv(p) && p.inFlight != []
    ensures p.sent <= |p.inFlight[0].buf|
    ensures var m := PumpTransmit(p, |p.inFlight[0].buf| - p.sent);
      PumpInv(m) && CanComplete(m, true) && m == p.(wire := m.wire, sent := |p.inFlight[0].buf|)
  {
    assert p.failed == [] && p.failed + p.inFlight == p.inFlight;
    PumpTransmitInv(p, |p.inFlight[0].buf| - p.sent);
  }

  lemma CompleteOneEffect<E>(p: Pump<E>)
    requires PumpInv(p) && p.io.started && !p.lost && p.inFlight != []
    ensures var q := CompleteOne(p);
      && PumpInv(q) && q.io.started && !q.lost && q.accepted == p.accepted
      && q.inFlight + q.io.outq.elems == p.io.outq.elems
  {
    TransmitRest(p);
    var m := PumpTransmit(p, |p.inFlight[0].buf| - p.sent);
    PumpDoneInv(m, true);
    assert CompleteOne(p) == PumpDone(m, true);
    assert p.inFlight[1..] == [];
  }

  lemma {:induction false} CompleteEffect<E>(p: Pump<E>, n: nat)
    requires PumpInv(p) && p.io.started && !p.lost
    requires n <= |p.inFlight| + |p.io.outq.elems|
    ensures var q := Complete(p, n);
      && PumpInv(q) && q.io.started && !q.lost && q.accepted == p.accepted
      && |q.inFlight| + |q.io.outq.elems| == |p.inFlight| + |p.io.outq.elems| - n
    decreases n
  {
    if n > 0 {
      CompleteOneEffect(p);
      CompleteEffect(CompleteOne(p), n - 1);
    }
  }

  /** A healthy pump is idle exactly if all it accepted was written. */
  lemma IdleIff<E>(p: Pump<E>)
    requires PumpInv(p) && !p.lost
    ensures p.io.writing <==> |p.inFlight| + |p.io.outq.elems| > 0
    ensures !p.io.writing ==> p.written == p.accepted && p.wire == Concat(Bufs(p.accepted)) && p.io.outq == EmptyQueue()
  {
    if !p.io.writing {
      assert p.failed == [];
      assert Partial(p) == [];
    }
  }

  /** With no further sends, a started healthy pump takes exactly one successful completion per accepted but
      unwritten buffer to drain; fewer leave it busy. */
  lemma {:induction false} Drain<E>(p: Pump<E>, n: nat)
    requires PumpInv(p) && p.io.started && !p.lost
    requires n <= |p.inFlight| + |p.io.outq.elems|
    ensures var q := Complete(p, n);
      && PumpInv(q) && q.io.started && !q.lost && q.accepted == p.accepted
      && |q.inFlight| + |q.io.outq.elems| == |p.inFlight| + |p.io.outq.elems| - n
    ensures n == |p.inFlight| + |p.io.outq.elems| ==>
      var q := Complete(p, n);
      && q.written == q.accepted && q.wire == Concat(Bufs(q.accepted))
      && !q.io.writing && q.io.outq == EmptyQueue()
    ensures n < |p.inFlight| + |p.io.outq.elems| ==> Complete(p, n).io.writing
  {
    CompleteEffect(p, n);
    IdleIff(Complete(p, n));
  }
}
