/** The simple variable length message frame (include/net_ip/component/simple_variable_len_msg_frame.hpp) with the
    two-byte big-endian header of test/include/net_ip/shared_utility_test.hpp. */
module VarLen {
  import opened Bytes
  import opened Framing
  import opened StreamReader

  const MAX_BODY: nat := 65534  // make_variable_len_msg asserts that the size is below the largest uint16

  /** make_variable_len_msg. */
  function Encode(body: Buf): Buf
    requires |body| <= MAX_BODY
  {
    [(|body| / 256) as Byte, (|body| % 256) as Byte] + body
  }

  /** decode_variable_len_msg_hdr, which asserts that it is given two bytes. */
  function DecodeHeader(buf: Buf): nat {
    if |buf| == 2 then buf[0] as int * 256 + buf[1] as int else 0
  }

  /** The message frame function object; its state is the captured `hdr_processed`. */
  function SimpleFrame(hdrProcessed: bool, buf: Buf): (bool, nat) {
    if hdrProcessed then (false, 0) else (true, DecodeHeader(buf))
  }

  function VarLenMode(): Mode<bool> {
    Framed(2, SimpleFrame)
  }

  /** The function object, as the mutable lambda it is. */
  class SimpleVarLenMsgFrame {
    var hdrProcessed: bool

    constructor ()
      ensures !hdrProcessed
    {
      hdrProcessed := false;
    }

    method Call(buf: Buf) returns (n: nat)
      modifies this
      ensures (hdrProcessed, n) == SimpleFrame(old(hdrProcessed), buf)
    {
      if hdrProcessed {
        hdrProcessed := false;
        n := 0;
      } else {
        hdrProcessed := true;
        n := DecodeHeader(buf);
      }
    }
  }

  ghost predicate Sendable(bodies: seq<Buf>) {
    forall i :: 0 <= i < |bodies| ==> |bodies[i]| <= MAX_BODY
  }

  function EncodeAll(bodies: seq<Buf>): seq<Buf>
    requires Sendable(bodies)
  {
    seq(|bodies|, i requires 0 <= i < |bodies| => Encode(bodies[i]))
  }

  function CountEmpty(bodies: seq<Buf>): nat {
    if |bodies| == 0 then 0 else (if |bodies[0]| == 0 then 1 else 0) + CountEmpty(bodies[1..])
  }

  /** Every non-empty body comes after an even number of empty ones. */
  ghost predicate EvenEmptiesBefore(bodies: seq<Buf>, parity: nat) {
    forall i :: 0 <= i < |bodies| && |bodies[i]| > 0 ==> (parity + CountEmpty(bodies[..i])) % 2 == 0
  }

  lemma HeaderRoundTrip(body: Buf)
    requires |body| <= MAX_BODY
    ensures DecodeHeader(Encode(body)[..2]) == |body|
  {
  }

  /** One encoded message read by a frame in its initial state: an empty body leaves the flag set. */
  lemma ReadFresh(body: Buf)
    requires |body| <= MAX_BODY
    ensures First(VarLenMode(), false, Encode(body)) == Some((2 + |body|, |body| == 0))
  {
    var e := Encode(body);
    HeaderRoundTrip(body);
    assert e[0..2] == e[..2];
    if |body| > 0 {
      assert FirstFrom(SimpleFrame, true, |body|, 2, e) == Some((2 + |body|, false));
    }
  }

  /** With the flag left set only the two header bytes are taken for a message. */
  lemma ReadAfterEmpty(body: Buf)
    requires |body| <= MAX_BODY
    ensures First(VarLenMode(), true, Encode(body)) == Some((2, false))
  {
  }

  /** The count of empty bodies before a later body begins with the first one. */
  lemma CountEmptyTail(bodies: seq<Buf>, i: nat)
    requires 0 < i <= |bodies|
    ensures CountEmpty(bodies[..i]) == (if |bodies[0]| == 0 then 1 else 0) + CountEmpty(bodies[1..][..i - 1])
  {
    assert bodies[..i][1..] == bodies[1..][..i - 1];
  }

  lemma EvenEmptiesTail(bodies: seq<Buf>, parity: nat)
    requires |bodies| > 0 && EvenEmptiesBefore(bodies, parity)
    ensures |bodies[0]| > 0 ==> parity % 2 == 0
    ensures EvenEmptiesBefore(bodies[1..], parity + if |bodies[0]| == 0 then 1 else 0)
  {
    assert |bodies[0]| > 0 ==> (parity + CountEmpty(bodies[..0])) % 2 == 0;
    var rest := bodies[1..];
    forall i | 0 <= i < |rest| && |rest[i]| > 0
      ensures (parity + (if |bodies[0]| == 0 then 1 else 0) + CountEmpty(rest[..i])) % 2 == 0
    {
      assert bodies[i + 1] == rest[i];
      CountEmptyTail(bodies, i + 1);
    }
  }

  lemma EvenEmptiesCons(bodies: seq<Buf>, parity: nat)
    requires |bodies| > 0 && (|bodies[0]| > 0 ==> parity % 2 == 0)
    requires EvenEmptiesBefore(bodies[1..], parity + if |bodies[0]| == 0 then 1 else 0)
    ensures EvenEmptiesBefore(bodies, parity)
  {
    forall i | 0 <= i < |bodies| && |bodies[i]| > 0
      ensures (parity + CountEmpty(bodies[..i])) % 2 == 0
    {
      if i > 0 {
        assert |bodies[1..][i - 1]| > 0;
        CountEmptyTail(bodies, i);
      }
    }
  }

  lemma EvenEmptiesStep(bodies: seq<Buf>, parity: nat)
    requires |bodies| > 0
    ensures var e := if |bodies[0]| == 0 then 1 else 0;
      EvenEmptiesBefore(bodies, parity) <==>
        (|bodies[0]| > 0 ==> parity % 2 == 0) && EvenEmptiesBefore(bodies[1..], parity + e)
  {
    if EvenEmptiesBefore(bodies, parity) {
      EvenEmptiesTail(bodies, parity);
    } else if |bodies[0]| > 0 ==> parity % 2 == 0 {
      if EvenEmptiesBefore(bodies[1..], parity + if |bodies[0]| == 0 then 1 else 0) {
        EvenEmptiesCons(bodies, parity);
      }
    }
  }

  lemma {:induction false} ParsesIff(bodies: seq<Buf>, parity: nat)
    requires Sendable(bodies)
    ensures Parses(VarLenMode(), parity % 2 == 1, EncodeAll(bodies)) <==> EvenEmptiesBefore(bodies, parity)
    decreases |bodies|
  {
    if |bodies| > 0 {
      ReadFresh(bodies[0]);
      ReadAfterEmpty(bodies[0]);
      EvenEmptiesStep(bodies, parity);
      assert EncodeAll(bodies)[1..] == EncodeAll(bodies[1..]);
      ParsesIff(bodies[1..], parity + if |bodies[0]| == 0 then 1 else 0);
    }
  }

  /** The stream of encoded bodies splits back into exactly them if and only if every non-empty body follows an
      even number of empty ones; in particular when no body but the last is empty. */
  lemma VarLenRoundTripIff(bodies: seq<Buf>)
    requires Sendable(bodies)
    ensures SplitsInto(VarLenMode(), false, Concat(EncodeAll(bodies)), EncodeAll(bodies)) <==> EvenEmptiesBefore(bodies, 0)
  {
    RoundTripIff(VarLenMode(), false, EncodeAll(bodies));
    ParsesIff(bodies, 0);
  }

  /** It happens: the message after one empty body is lost. */
  lemma EmptyBodyBreaks()
    ensures !EvenEmptiesBefore([[], [1]], 0)
    ensures !SplitsInto(VarLenMode(), false, Concat(EncodeAll([[], [1]])), EncodeAll([[], [1]]))
  {
    var bodies: seq<Buf> := [[], [1]];
    assert bodies[..1] == [[]] && CountEmpty([[]]) == 1 by {
      var one: seq<Buf> := [[]];
      assert one[1..] == [];
    }
    assert |bodies[1]| > 0;
    VarLenRoundTripIff(bodies);
  }

  lemma {:induction false} NoEmptyBody(bodies: seq<Buf>)
    requires forall i :: 0 <= i < |bodies| ==> |bodies[i]| > 0
    ensures CountEmpty(bodies) == 0
  {
    if |bodies| > 0 {
      NoEmptyBody(bodies[1..]);
    }
  }

  /** The usual case: an empty body at most at the end. */
  lemma EmptyOnlyLast(bodies: seq<Buf>)
    requires forall i :: 0 <= i < |bodies| - 1 ==> |bodies[i]| > 0
    ensures EvenEmptiesBefore(bodies, 0)
  {
    forall i | 0 <= i < |bodies|
      ensures CountEmpty(bodies[..i]) == 0
    {
      NoEmptyBody(bodies[..i]);
    }
  }

  /** A reader of such a stream, however it arrives, delivers the encoded messages and nothing else. */
  lemma {:induction false} VarLenDelivers(bodies: seq<Buf>, evs: seq<ReadEvent>)
    requires Sendable(bodies) && EvenEmptiesBefore(bodies, 0)
    ensures var r := ReadRun(StartReader(VarLenMode(), false), evs);
      r.consumed <= Concat(EncodeAll(bodies)) ==>
        && r.delivered <= EncodeAll(bodies)
        && (r.consumed == Concat(EncodeAll(bodies)) && Quiescent(r) ==> r.delivered == EncodeAll(bodies) && r.vec == [])
  {
    ParsesIff(bodies, 0);
    DeliversList(VarLenMode(), false, EncodeAll(bodies), evs);
  }

  ghost predicate VarLenShape(r: Reader<bool>) {
    && r.mode == VarLenMode()
    && |r.vec| <= r.size <= 2 + 65535
    && (r.busy ==> r.fs == r.mark && r.numBytes == |r.vec|)
    && (!r.busy ==>
        && (r.start == 0 || r.start == 2)
        && (r.start == 0 ==> r.size == 2 && r.fs == r.mark)
        && (r.start == 2 ==> r.fs && !r.mark && 2 <= |r.vec| && r.size == 2 + DecodeHeader(r.vec[..2])))
  }

  lemma {:induction false} VarLenShapeKept(r: Reader<bool>, evs: seq<ReadEvent>)
    requires VarLenShape(r)
    ensures VarLenShape(ReadRun(r, evs))
    decreases |evs|
  {
    if |evs| > 0 {
      var t := ReadStep(r, evs[0]);
      if t.start == 2 && !t.busy {
        assert t.vec[..2] == r.vec[..2];
      }
      VarLenShapeKept(t, evs[1..]);
    }
  }

  /** On any stream, well formed or not: m_byte_vec never exceeds the header plus the largest body a header can
      announce; the decoder is only given two bytes, as it asserts; and in a message that began with the flag clear,
      the flag is set exactly while the body is being read. */
  lemma {:induction false} VarLenBuffer(evs: seq<ReadEvent>)
    ensures var t := ReadRun(StartReader(VarLenMode(), false), evs);
      && |t.vec| <= t.size <= 2 + 65535
      && (Ready(t) && !t.fs ==> t.start <= |t.vec| && |t.vec| - t.start == 2)
      && (!t.busy && !t.mark ==> (t.fs <==> t.start > 0))
  {
    VarLenShapeKept(StartReader(VarLenMode(), false), evs);
  }
}
