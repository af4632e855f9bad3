/** The queue of buffers waiting to be written (include/net_ip/detail/output_queue.hpp).

    The two counters are `std::atomic_size_t`: they wrap modulo 2^64, and an application thread may
    load them between any two statements of the run thread. */
module OutQueue {
  import opened Bytes

  const SIZE_T_MODULUS: nat := 0x1_0000_0000_0000_0000

  function Wrap(n: int): nat {
    n % SIZE_T_MODULUS
  }

  datatype Element<+E> = Element(buf: Buf, endp: Option<E>)

  datatype Stats = Stats(outputQueueSize: nat, bytesInOutputQueue: nat)

  /** The contents together with the two counters. */
  datatype Queue<+E> = Queue(elems: seq<Element<E>>, size: nat, bytes: nat)

  function EmptyQueue<E>(): Queue<E> {
    Queue([], 0, 0)
  }

  function Add<E>(q: Queue<E>, e: Element<E>): Queue<E> {
    Queue(q.elems + [e], Wrap(q.size + 1), Wrap(q.bytes + |e.buf|))
  }

  function Next<E>(q: Queue<E>): (Option<Element<E>>, Queue<E>) {
    if |q.elems| == 0 then (None, q)
    else
      var e := q.elems[0];
      (Some(e), Queue(q.elems[1..], Wrap(q.size - 1), Wrap(q.bytes - |e.buf|)))
  }

  function TotalBytes<E>(elems: seq<Element<E>>): nat {
    if |elems| == 0 then 0 else |elems[0].buf| + TotalBytes(elems[1..])
  }

  /** Both counters show the contents, modulo the width of `size_t`. */
  ghost predicate Exact<E>(q: Queue<E>) {
    q.size == Wrap(|q.elems|) && q.bytes == Wrap(TotalBytes(q.elems))
  }

  lemma {:induction false} TotalBytesAppend<E>(a: seq<Element<E>>, b: seq<Element<E>>)
    ensures TotalBytes(a + b) == TotalBytes(a) + TotalBytes(b)
  {
    if |a| == 0 {
      assert a + b == b;
    } else {
      assert (a + b)[1..] == a[1..] + b;
      TotalBytesAppend(a[1..], b);
    }
  }

  lemma WrapWrap(a: int, b: int)
    ensures Wrap(Wrap(a) + b) == Wrap(a + b)
  {
    assert a + b == (Wrap(a) + b) + SIZE_T_MODULUS * (a / SIZE_T_MODULUS);
  }

  /** Adding keeps the counters exact, even across an overflow of the byte sum. */
  lemma AddExact<E>(q: Queue<E>, e: Element<E>)
    requires Exact(q)
    ensures Exact(Add(q, e))
  {
    TotalBytesAppend(q.elems, [e]);
    WrapWrap(|q.elems|, 1);
    WrapWrap(TotalBytes(q.elems), |e.buf|);
  }

  lemma NextExact<E>(q: Queue<E>)
    requires Exact(q)
    ensures Exact(Next(q).1)
  {
    if |q.elems| > 0 {
      WrapWrap(|q.elems|, -1);
      WrapWrap(TotalBytes(q.elems), -|q.elems[0].buf|);
    }
  }

  datatype Operation<+E> = AddElement(e: Element<E>) | GetNextElement

  function Run<E>(q: Queue<E>, ops: seq<Operation<E>>): Queue<E>
    decreases |ops|
  {
    if |ops| == 0 then q
    else Run(match ops[0] case AddElement(e) => Add(q, e) case GetNextElement => Next(q).1, ops[1..])
  }

  /** In every run the counters are the length and byte sum modulo 2^64; so they are the true values whenever
      those fit, and zero on an empty queue even if the sum overflowed on the way. */
  lemma {:induction false} CountersExact<E>(q: Queue<E>, ops: seq<Operation<E>>)
    requires Exact(q)
    ensures Exact(Run(q, ops))
    ensures TotalBytes(Run(q, ops).elems) < SIZE_T_MODULUS ==> Run(q, ops).bytes == TotalBytes(Run(q, ops).elems)
    ensures |Run(q, ops).elems| == 0 ==> Run(q, ops).size == 0 && Run(q, ops).bytes == 0
    decreases |ops|
  {
    if |ops| > 0 {
      match ops[0] {
        case AddElement(e) =>
          AddExact(q, e);
          CountersExact(Add(q, e), ops[1..]);
        case GetNextElement =>
          NextExact(q);
          CountersExact(Next(q).1, ops[1..]);
      }
    }
  }

  // ----- the same operations one statement at a time, as a concurrent reader sees them -----

  /** How far the run thread is inside `add_element` or `get_next_element`. */
  datatype Progress<+E> = Idle | Pushed(e: Element<E>) | Incremented(e: Element<E>) | Popped(e: Element<E>) | Decremented(e: Element<E>)

  datatype Shared<+E> = Shared(q: Queue<E>, at: Progress<E>)

  datatype Statement<+E> = Push(e: Element<E>) | Pop | Counter

  function Micro<E>(s: Shared<E>, st: Statement<E>): Shared<E> {
    match (st, s.at)
    case (Push(e), Idle) => Shared(s.q.(elems := s.q.elems + [e]), Pushed(e))
    case (Pop, Idle) => if |s.q.elems| == 0 then s else Shared(s.q.(elems := s.q.elems[1..]), Popped(s.q.elems[0]))
    case (Counter, Pushed(e)) => Shared(s.q.(size := Wrap(s.q.size + 1)), Incremented(e))
    case (Counter, Incremented(e)) => Shared(s.q.(bytes := Wrap(s.q.bytes + |e.buf|)), Idle)
    case (Counter, Popped(e)) => Shared(s.q.(size := Wrap(s.q.size - 1)), Decremented(e))
    case (Counter, Decremented(e)) => Shared(s.q.(bytes := Wrap(s.q.bytes - |e.buf|)), Idle)
    case _ => s
  }

  function MicroRun<E>(s: Shared<E>, sts: seq<Statement<E>>): Shared<E>
    decreases |sts|
  {
    if |sts| == 0 then s else MicroRun(Micro(s, sts[0]), sts[1..])
  }

  /** The contents when the operation in progress began. */
  function Before<E>(s: Shared<E>): seq<Element<E>> {
    match s.at
    case Idle => s.q.elems
    case Pushed(_) => if |s.q.elems| == 0 then [] else s.q.elems[..|s.q.elems| - 1]
    case Incremented(_) => if |s.q.elems| == 0 then [] else s.q.elems[..|s.q.elems| - 1]
    case Popped(e) => [e] + s.q.elems
    case Decremented(e) => [e] + s.q.elems
  }

  ghost predicate MicroInv<E>(s: Shared<E>) {
    && (s.at.Pushed? || s.at.Incremented? ==> |s.q.elems| > 0 && s.q.elems[|s.q.elems| - 1] == s.at.e)
    && s.q.size == Wrap(if s.at.Incremented? || s.at.Decremented? then |s.q.elems| else |Before(s)|)
    && s.q.bytes == Wrap(TotalBytes(Before(s)))
  }

  lemma PushedStepInv<E>(s: Shared<E>)
    requires MicroInv(s) && (s.at.Pushed? || s.at.Incremented?)
    ensures MicroInv(Micro(s, Counter))
    ensures !Micro(s, Counter).at.Idle? ==> Before(Micro(s, Counter)) == Before(s)
  {
    var e := s.at.e;
    assert s.q.elems == Before(s) + [e];
    if s.at.Pushed? {
      WrapWrap(|Before(s)|, 1);
    } else {
      TotalBytesAppend(Before(s), [e]);
      WrapWrap(TotalBytes(Before(s)), |e.buf|);
    }
  }

  lemma PoppedStepInv<E>(s: Shared<E>)
    requires MicroInv(s) && (s.at.Popped? || s.at.Decremented?)
    ensures MicroInv(Micro(s, Counter))
    ensures !Micro(s, Counter).at.Idle? ==> Before(Micro(s, Counter)) == Before(s)
  {
    if s.at.Popped? {
      WrapWrap(|Before(s)|, -1);
    } else {
      assert Before(s)[1..] == s.q.elems;
      WrapWrap(TotalBytes(Before(s)), -|s.at.e.buf|);
    }
  }

  lemma MicroStepInv<E>(s: Shared<E>, st: Statement<E>)
    requires MicroInv(s)
    ensures MicroInv(Micro(s, st))
    ensures s.at.Idle? ==> Before(Micro(s, st)) == s.q.elems
    ensures !s.at.Idle? && !Micro(s, st).at.Idle? ==> Before(Micro(s, st)) == Before(s)
  {
    if s.at.Idle? {
      var t := Micro(s, st);
      if t.at.Pushed? {
        assert t.q.elems[..|t.q.elems| - 1] == s.q.elems;
      }
    } else if st.Counter? {
      if s.at.Pushed? || s.at.Incremented? {
        PushedStepInv(s);
      } else {
        PoppedStepInv(s);
      }
    }
  }

  /** Whatever statement the run thread has reached, each counter a reader loads shows the contents before or
      after the operation in progress; between operations both are exact; and a decrement never underflows. */
  lemma {:induction false} LoadsAreBeforeOrAfter<E>(s: Shared<E>, sts: seq<Statement<E>>)
    requires MicroInv(s)
    ensures MicroInv(MicroRun(s, sts))
    ensures var t := MicroRun(s, sts);
      && (t.q.size == Wrap(|Before(t)|) || t.q.size == Wrap(|t.q.elems|))
      && (t.q.bytes == Wrap(TotalBytes(Before(t))) || t.q.bytes == Wrap(TotalBytes(t.q.elems)))
      && (t.at.Idle? ==> Exact(t.q))
      && (t.at.Popped? && |Before(t)| < SIZE_T_MODULUS ==> t.q.size >= 1)
    decreases |sts|
  {
    if |sts| > 0 {
      MicroStepInv(s, sts[0]);
      LoadsAreBeforeOrAfter(Micro(s, sts[0]), sts[1..]);
    }
  }

  function ThreeStatements<E>(q: Queue<E>, first: Statement<E>): Shared<E> {
    Micro(Micro(Micro(Shared(q, Idle), first), Counter), Counter)
  }

  /** Run to the end, the statements of one call are the whole operation. */
  lemma StatementsMakeOperations<E>(q: Queue<E>, e: Element<E>)
    ensures ThreeStatements(q, Push(e)) == Shared(Add(q, e), Idle)
    ensures |q.elems| > 0 ==> ThreeStatements(q, Pop) == Shared(Next(q).1, Idle)
  {
  }

  /** The pair of loads, however, can be torn: the size before and the byte count after one `add_element` is the
      pair of no queue contents at all. */
  lemma StatsCanBeTorn<E>(e: Element<E>, contents: seq<Element<E>>)
    requires 0 < |e.buf| < SIZE_T_MODULUS
    ensures var early := EmptyQueue<E>();
      var late := ThreeStatements(early, Push(e)).q;
      !(early.size == |contents| && late.bytes == TotalBytes(contents))
  {
    StatementsMakeOperations(EmptyQueue(), e);
    assert |contents| == 0 ==> TotalBytes(contents) == 0;
  }

  class OutputQueue<E> {
    var outputQueue: seq<Element<E>>
    var queueSize: nat
    var currentNumBytes: nat

    ghost function State(): Queue<E> reads this {
      Queue(outputQueue, queueSize, currentNumBytes)
    }

    constructor ()
      ensures State() == EmptyQueue()
    {
      outputQueue, queueSize, currentNumBytes := [], 0, 0;
    }

    method GetNextElement() returns (r: Option<Element<E>>)
      modifies this
      ensures (r, State()) == Next(old(State()))
    {
      if |outputQueue| == 0 {
        return None;
      }
      var e := outputQueue[0];
      outputQueue := outputQueue[1..];
      queueSize := Wrap(queueSize - 1);
      currentNumBytes := Wrap(currentNumBytes - |e.buf|);
      r := Some(e);
    }

    method AddElement(buf: Buf, endp: Option<E>)
      modifies this
      ensures State() == Add(old(State()), Element(buf, endp))
    {
      outputQueue := outputQueue + [Element(buf, endp)];
      queueSize := Wrap(queueSize + 1);
      currentNumBytes := Wrap(currentNumBytes + |buf|);
    }

    method GetQueueStats() returns (s: Stats)
      ensures s == Stats(State().size, State().bytes)
      ensures Exact(State()) && TotalBytes(outputQueue) < SIZE_T_MODULUS ==> s.bytesInOutputQueue == TotalBytes(outputQueue)
      ensures Exact(State()) && |outputQueue| < SIZE_T_MODULUS ==> s.outputQueueSize == |outputQueue|
    {
      s := Stats(queueSize, currentNumBytes);
    }
  }
}
