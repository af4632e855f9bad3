/** The read chain of `tcp_io`: the buffer `m_byte_vec` as `handle_read` and `handle_read_until` grow and shrink it
    (include/net_ip/detail/tcp_io.hpp), one completion at a time, with bytes arriving in pieces of any size. */
module StreamReader {
  import opened Bytes
  import opened Framing

  datatype Reader<!F> = Reader(
    mode: Mode<F>,
    fs: F,          // state of the message frame function object
    vec: Buf,       // the received bytes in m_byte_vec
    start: nat,     // framed reads: where in m_byte_vec the buffer of the pending read begins
    size: nat,      // framed reads: m_byte_vec.size()
    busy: bool,     // the message handler is running
    numBytes: nat,  // while busy: the length of the message it was given
    // history
    first: F,       // state of the frame when reading began
    mark: F,        // state of the frame at the last message boundary
    consumed: Buf,  // everything read from the socket
    delivered: seq<Buf>,
    took: seq<nat>  // for each completed read, how many bytes its completion used up
  )

  datatype ReadEvent =
    | ReadSome(chunk: Buf)  // the outstanding operation receives bytes
    | ReadOk                // and completes
    | HandlerTrue           // the message handler returns true

  function StartReader<F>(m: Mode<F>, fs: F): Reader<F> {
    Reader(m, fs, [], 0, if m.Framed? then m.headerSize else 0, false, 0, fs, fs, [], [], [])
  }

  /** The condition for the outstanding operation to complete without error: `async_read` fills its buffer,
      `async_read_until` has the delimiter in its buffer. */
  predicate Ready<F>(r: Reader<F>) {
    !r.busy &&
    match r.mode
    case Framed(_, _) => |r.vec| == r.size && r.start <= r.size
    case Delimited(d) => Find(d, r.vec).Some?
  }

  predicate Takes<F>(r: Reader<F>, chunk: Buf) {
    !r.busy && (if r.mode.Framed? then |r.vec| + |chunk| <= r.size else !Ready(r))
  }

  function Take<F>(r: Reader<F>, chunk: Buf): Reader<F> {
    if Takes(r, chunk) then r.(vec := r.vec + chunk, consumed := r.consumed + chunk) else r
  }

  /** Up to and including the call of the message handler. */
  function HandleRead<F>(r: Reader<F>): Reader<F>
    requires Ready(r)
  {
    match r.mode
    case Framed(_, frame) =>
      var (fs', n) := frame(r.fs, r.vec[r.start..]);
      if n == 0 then
        r.(fs := fs', mark := fs', busy := true, numBytes := |r.vec|, delivered := r.delivered + [r.vec],
           took := r.took + [r.size - r.start])
      else
        r.(fs := fs', start := r.size, size := r.size + n, took := r.took + [r.size - r.start])
    case Delimited(d) =>
      var nb := Find(d, r.vec).value + |d|;
      r.(busy := true, numBytes := nb, delivered := r.delivered + [r.vec[..nb]], took := r.took + [nb])
  }

  /** The rest of the completion handler, when the message handler asked to continue. */
  function AfterHandler<F>(r: Reader<F>): Reader<F>
    requires r.numBytes <= |r.vec|
  {
    match r.mode
    case Framed(h, _) => r.(busy := false, vec := [], start := 0, size := h)
    case Delimited(_) => r.(busy := false, vec := r.vec[r.numBytes..])
  }

  function ReadStep<F>(r: Reader<F>, ev: ReadEvent): Reader<F> {
    match ev
    case ReadSome(chunk) => Take(r, chunk)
    case ReadOk => if Ready(r) then HandleRead(r) else r
    case HandlerTrue => if r.busy && r.numBytes <= |r.vec| then AfterHandler(r) else r
  }

  function ReadRun<F>(r: Reader<F>, evs: seq<ReadEvent>): Reader<F>
    decreases |evs|
  {
    if |evs| == 0 then r else ReadRun(ReadStep(r, evs[0]), evs[1..])
  }

  /** Received and not yet delivered. */
  function Remainder<F>(r: Reader<F>): Buf {
    if r.busy && r.numBytes <= |r.vec| then r.vec[r.numBytes..] else r.vec
  }

  /** What the frame has seen of the current message leads to its present state and demand, whatever follows. */
  ghost predicate Walked<F>(r: Reader<F>)
    requires r.mode.Framed? && r.start <= |r.vec| && r.start <= r.size
  {
    var seen := r.vec[..r.start];
    forall c: Buf :: FirstFrom(r.mode.frame, r.mark, r.mode.headerSize, 0, seen + c)
                  == FirstFrom(r.mode.frame, r.fs, r.size - r.start, r.start, seen + c)
  }

  ghost predicate BufferInv<F>(r: Reader<F>) {
    && r.mode.Positive()
    && (r.busy ==> 0 < r.numBytes <= |r.vec| && (r.mode.Framed? ==> r.numBytes == |r.vec|))
    && (r.mode.Delimited? || r.busy ==> r.fs == r.mark)
    && (r.mode.Framed? && !r.busy ==> r.start <= |r.vec| <= r.size && r.start < r.size && Walked(r))
  }

  /** `delivered` and what `rest` still holds are the batch split of `consumed`. */
  ghost predicate Agrees<F>(m: Mode<F>, first: F, consumed: Buf, delivered: seq<Buf>, mark: F, rest: Buf)
    requires m.Positive()
  {
    var q := Split(m, mark, rest);
    && consumed == Concat(delivered) + rest
    && Split(m, first, consumed) == Parsed(delivered + q.msgs, q.rest, q.fs)
  }

  /** The bytes that completed reads have used up: delivered, or part of a message and seen by the frame. */
  function Used<F>(r: Reader<F>): nat {
    |Concat(r.delivered)| + (if r.busy || r.mode.Delimited? then 0 else r.start)
  }

  ghost predicate BatchInv<F>(r: Reader<F>)
    requires r.mode.Positive()
  {
    && Agrees(r.mode, r.first, r.consumed, r.delivered, r.mark, Remainder(r))
    && (forall i :: 0 <= i < |r.took| ==> r.took[i] > 0)
    && Sum(r.took) == Used(r)
  }

  ghost predicate ReaderInv<F>(r: Reader<F>) {
    BufferInv(r) && BatchInv(r)
  }

  lemma StartInv<F>(m: Mode<F>, fs: F)
    requires m.Positive()
    ensures ReaderInv(StartReader(m, fs))
  {
    var r := StartReader(m, fs);
    var q := Split(m, fs, []);
    assert [] + q.msgs == q.msgs;
    if m.Framed? {
      assert r.vec[..r.start] == [];
    }
  }

  lemma AgreesTake<F>(m: Mode<F>, first: F, consumed: Buf, delivered: seq<Buf>, mark: F, rest: Buf, chunk: Buf)
    requires m.Positive() && Agrees(m, first, consumed, delivered, mark, rest)
    ensures Agrees(m, first, consumed + chunk, delivered, mark, rest + chunk)
  {
    Assoc(Concat(delivered), rest, chunk);
    SplitAppend(m, first, consumed, chunk);
    SplitAppend(m, mark, rest, chunk);
    var p := Split(m, mark, rest);
    Assoc(delivered, p.msgs, Split(m, p.fs, p.rest + chunk).msgs);
  }

  /** At a message boundary the batch split of what is left begins with the message being delivered. */
  lemma AgreesDeliver<F>(m: Mode<F>, first: F, consumed: Buf, delivered: seq<Buf>, mark: F, rest: Buf, n: nat, fs': F)
    requires m.Positive() && Agrees(m, first, consumed, delivered, mark, rest)
    requires n <= |rest| && First(m, mark, rest) == Some((n, fs'))
    ensures Agrees(m, first, consumed, delivered + [rest[..n]], fs', rest[n..])
  {
    ConcatLast(delivered, rest[..n]);
    Assoc(Concat(delivered), rest[..n], rest[n..]);
    assert rest == rest[..n] + rest[n..];
    Assoc(delivered, [rest[..n]], Split(m, fs', rest[n..]).msgs);
  }

  lemma TakeInv<F>(r: Reader<F>, chunk: Buf)
    requires ReaderInv(r) && Takes(r, chunk)
    ensures ReaderInv(Take(r, chunk))
  {
    AgreesTake(r.mode, r.first, r.consumed, r.delivered, r.mark, r.vec, chunk);
    var t := Take(r, chunk);
    if r.mode.Framed? {
      assert t.vec[..t.start] == r.vec[..r.start];
    }
  }

  lemma WalkOn<F>(r: Reader<F>, n: nat, fs': F)
    requires BufferInv(r) && Ready(r) && r.mode.Framed? && n != 0
    requires r.mode.frame(r.fs, r.vec[r.start..]) == (fs', n)
    ensures BufferInv(HandleRead(r))
  {
    var t := HandleRead(r);
    var seen := r.vec[..r.start];
    assert t.vec[..t.start] == r.vec;
    forall c: Buf
      ensures FirstFrom(r.mode.frame, r.mark, r.mode.headerSize, 0, r.vec + c) == FirstFrom(r.mode.frame, fs', n, r.size, r.vec + c)
    {
      assert seen + (r.vec[r.start..] + c) == r.vec + c;
      assert (r.vec + c)[r.start..r.size] == r.vec[r.start..];
    }
  }

  lemma LastRead<F>(r: Reader<F>)
    requires BufferInv(r) && Ready(r) && r.mode.Framed? && r.mode.frame(r.fs, r.vec[r.start..]).1 == 0
    ensures First(r.mode, r.mark, r.vec) == Some((|r.vec|, r.mode.frame(r.fs, r.vec[r.start..]).0))
  {
    assert r.vec[..r.start] + r.vec[r.start..] == r.vec;
    assert r.vec[r.start..r.size] == r.vec[r.start..];
  }

  lemma FramedReadInv<F>(r: Reader<F>)
    requires ReaderInv(r) && Ready(r) && r.mode.Framed?
    ensures ReaderInv(HandleRead(r))
  {
    var (fs', n) := r.mode.frame(r.fs, r.vec[r.start..]);
    SumLast(r.took, r.size - r.start);
    if n == 0 {
      LastRead(r);
      AgreesDeliver(r.mode, r.first, r.consumed, r.delivered, r.mark, r.vec, |r.vec|, fs');
      ConcatLast(r.delivered, r.vec);
      assert r.vec[..|r.vec|] == r.vec;
    } else {
      WalkOn(r, n, fs');
    }
  }

  lemma DelimitedReadInv<F>(r: Reader<F>)
    requires ReaderInv(r) && Ready(r) && r.mode.Delimited?
    ensures ReaderInv(HandleRead(r))
  {
    var nb := Find(r.mode.delimiter, r.vec).value + |r.mode.delimiter|;
    AgreesDeliver(r.mode, r.first, r.consumed, r.delivered, r.mark, r.vec, nb, r.fs);
    SumLast(r.took, nb);
    ConcatLast(r.delivered, r.vec[..nb]);
  }

  lemma AfterHandlerInv<F>(r: Reader<F>)
    requires ReaderInv(r) && r.busy
    ensures ReaderInv(AfterHandler(r))
  {
    var t := AfterHandler(r);
    assert Remainder(t) == Remainder(r);
    if r.mode.Framed? {
      assert t.vec[..t.start] == [];
    }
  }

  lemma ReadStepInv<F>(r: Reader<F>, ev: ReadEvent)
    requires ReaderInv(r)
    ensures ReaderInv(ReadStep(r, ev))
  {
    match ev {
      case ReadSome(chunk) =>
        if Takes(r, chunk) {
          TakeInv(r, chunk);
        }
      case ReadOk =>
        if Ready(r) {
          if r.mode.Framed? {
            FramedReadInv(r);
          } else {
            DelimitedReadInv(r);
          }
        }
      case HandlerTrue =>
        if r.busy {
          AfterHandlerInv(r);
        }
    }
  }

  /** Every run, whatever the sizes in which the bytes arrive, keeps the reader equal to the batch split. */
  lemma {:induction false} ReadRunInv<F>(r: Reader<F>, evs: seq<ReadEvent>)
    requires ReaderInv(r)
    ensures ReaderInv(ReadRun(r, evs))
    decreases |evs|
  {
    if |evs| > 0 {
      ReadStepInv(r, evs[0]);
      ReadRunInv(ReadStep(r, evs[0]), evs[1..]);
    }
  }

  lemma {:induction false} RunKeepsStart<F>(r: Reader<F>, evs: seq<ReadEvent>)
    ensures ReadRun(r, evs).mode == r.mode && ReadRun(r, evs).first == r.first
    decreases |evs|
  {
    if |evs| > 0 {
      RunKeepsStart(ReadStep(r, evs[0]), evs[1..]);
    }
  }

  /** Nothing more can be done with the bytes received so far. */
  ghost predicate Quiescent<F>(r: Reader<F>) {
    !r.busy && !Ready(r)
  }

  lemma QuiescentRemainder<F>(r: Reader<F>)
    requires BufferInv(r) && Quiescent(r)
    ensures Split(r.mode, r.mark, r.vec) == Parsed([], r.vec, r.mark)
  {
    if r.mode.Framed? {
      assert r.vec[..r.start] + r.vec[r.start..] == r.vec;
    }
    assert First(r.mode, r.mark, r.vec) == None;
  }

  /** For any frame or delimiter and any arrival pattern: delivered messages are a prefix of the batch split of the
      bytes received and, once nothing is left to do, all of it, with the undelivered suffix in `m_byte_vec`;
      delivered and undelivered bytes together are the bytes received; each completed read used up at least one. */
  lemma {:induction false} AgreesWithBatch<F>(m: Mode<F>, fs: F, evs: seq<ReadEvent>)
    requires m.Positive()
    ensures var r := ReadRun(StartReader(m, fs), evs);
      var batch := Split(m, fs, r.consumed);
      && r.delivered <= batch.msgs
      && r.consumed == Concat(r.delivered) + Remainder(r)
      && (forall i :: 0 <= i < |r.took| ==> r.took[i] > 0) && Sum(r.took) <= |r.consumed|
      && (Quiescent(r) ==> r.delivered == batch.msgs && r.vec == batch.rest)
  {
    var r := ReadRun(StartReader(m, fs), evs);
    StartInv(m, fs);
    ReadRunInv(StartReader(m, fs), evs);
    RunKeepsStart(StartReader(m, fs), evs);
    if Quiescent(r) {
      QuiescentRemainder(r);
      assert r.delivered + [] == r.delivered;
    }
  }

  /** So two runs over the same bytes, chopped up differently, end with the same messages and the same buffer. */
  lemma {:induction false} ChunkingDoesNotMatter<F>(m: Mode<F>, fs: F, evs: seq<ReadEvent>, evs': seq<ReadEvent>)
    requires m.Positive()
    requires var r, r' := ReadRun(StartReader(m, fs), evs), ReadRun(StartReader(m, fs), evs');
      r.consumed == r'.consumed && Quiescent(r) && Quiescent(r')
    ensures var r, r' := ReadRun(StartReader(m, fs), evs), ReadRun(StartReader(m, fs), evs');
      r.delivered == r'.delivered && r.vec == r'.vec
  {
    AgreesWithBatch(m, fs, evs);
    AgreesWithBatch(m, fs, evs');
  }

  /** A list of messages that the mode can parse arrives as exactly that list. */
  lemma {:induction false} DeliversList<F>(m: Mode<F>, fs: F, msgs: seq<Buf>, evs: seq<ReadEvent>)
    requires m.Positive() && Parses(m, fs, msgs)
    ensures var r := ReadRun(StartReader(m, fs), evs);
      r.consumed <= Concat(msgs) ==>
        && r.delivered <= msgs
        && (r.consumed == Concat(msgs) && Quiescent(r) ==> r.delivered == msgs && r.vec == [])
  {
    var r := ReadRun(StartReader(m, fs), evs);
    AgreesWithBatch(m, fs, evs);
    RoundTripIff(m, fs, msgs);
    if r.consumed <= Concat(msgs) {
      SplitPrefix(m, fs, r.consumed, Concat(msgs));
    }
  }
}
