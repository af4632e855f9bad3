/** The state shared by the TCP and UDP handlers (include/net_ip/detail/io_common.hpp): the started flag, the
    write-in-progress flag and the output queue. Each function returns what the method returns and the new state. */
module IoState {
  import opened Bytes
  import opened OutQueue

  datatype Io<+E> = Io(started: bool, writing: bool, outq: Queue<E>)

  function FreshIo<E>(): Io<E> {
    Io(false, false, EmptyQueue())
  }

  /** Compare-and-exchange from false to true. */
  function TryStart<E>(io: Io<E>): (bool, Io<E>) {
    (!io.started, io.(started := true))
  }

  /** Compare-and-exchange from true to false; the write flag and the queue keep their values. */
  function TryStop<E>(io: Io<E>): (bool, Io<E>) {
    (io.started, io.(started := false))
  }

  /** True when the caller must start the write itself. */
  function WriteSetup<E>(io: Io<E>, e: Element<E>): (bool, Io<E>) {
    if !io.started then (false, io)
    else if io.writing then (false, io.(outq := Add(io.outq, e)))
    else (true, io.(writing := true))
  }

  function TakeNext<E>(io: Io<E>): (Option<Element<E>>, Io<E>) {
    if !io.started then (None, io)
    else
      var (e, q) := Next(io.outq);
      (e, io.(outq := q, writing := e.Some?))
  }

  class IoCommon<E> {
    var ioStarted: bool
    var writeInProgress: bool
    const outq: OutputQueue<E>

    ghost function State(): Io<E> reads this, outq {
      Io(ioStarted, writeInProgress, outq.State())
    }

    constructor ()
      ensures State() == FreshIo() && fresh(outq)
    {
      ioStarted, writeInProgress := false, false;
      outq := new OutputQueue();
    }

    method SetIoStarted() returns (ok: bool)
      modifies this
      ensures (ok, State()) == TryStart(old(State()))
      ensures (ok <==> !old(ioStarted)) && ioStarted && writeInProgress == old(writeInProgress)
    {
      ok := !ioStarted;
      if ok {
        ioStarted := true;
      }
    }

    method Stop() returns (ok: bool)
      modifies this
      ensures (ok, State()) == TryStop(old(State()))
      ensures (ok <==> old(ioStarted)) && !ioStarted && writeInProgress == old(writeInProgress)
    {
      ok := ioStarted;
      if ok {
        ioStarted := false;
      }
    }

    method StartWriteSetup(buf: Buf, endp: Option<E>) returns (start: bool)
      modifies this, outq
      ensures (start, State()) == WriteSetup(old(State()), Element(buf, endp))
      ensures ioStarted == old(ioStarted) && (start <==> old(ioStarted) && !old(writeInProgress))
      ensures writeInProgress == (old(writeInProgress) || old(ioStarted))
      ensures outq.outputQueue == old(outq.outputQueue)
                + if old(ioStarted) && old(writeInProgress) then [Element(buf, endp)] else []
    {
      if !ioStarted {
        return false; // shutdown happening or not started
      }
      if writeInProgress {
        outq.AddElement(buf, endp);
        return false;
      }
      writeInProgress := true;
      start := true;
    }

    method GetNextElement() returns (elem: Option<Element<E>>)
      modifies this, outq
      ensures (elem, State()) == TakeNext(old(State()))
      ensures ioStarted == old(ioStarted)
      ensures !ioStarted ==> elem == None && writeInProgress == old(writeInProgress) && outq.outputQueue == old(outq.outputQueue)
      ensures ioStarted ==> writeInProgress == elem.Some?
                            && old(outq.outputQueue) == (if elem.Some? then [elem.value] else []) + outq.outputQueue
                            && (elem.None? ==> outq.outputQueue == [])
    {
      if !ioStarted {
        return None;
      }
      elem := outq.GetNextElement();
      writeInProgress := elem.Some?;
    }
  }
}
