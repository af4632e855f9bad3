/** Delimited text messages and fixed size reads: the other two ways of calling `tcp_io::start_io`, with the message
    makers of test/include/net_ip/shared_utility_test.hpp. */
module TextFraming {
  import opened Bytes
  import opened Framing
  import opened StreamReader

  const CR: Byte := 0x0D
  const LF: Byte := 0x0A

  function TextMode(d: Buf): Mode<()> {
    Delimited(d)
  }

  /** make_lf_text_msg and make_cr_lf_text_msg append the delimiter. */
  function Terminated(body: Buf, d: Buf): Buf {
    body + d
  }

  function TerminateAll(bodies: seq<Buf>, d: Buf): seq<Buf> {
    seq(|bodies|, i requires 0 <= i < |bodies| => Terminated(bodies[i], d))
  }

  /** The first occurrence of the delimiter is the appended one. */
  ghost predicate Clean(body: Buf, d: Buf) {
    Find(d, body + d) == Some(|body|)
  }

  lemma CleanIff(body: Buf, d: Buf)
    ensures Clean(body, d) <==> forall j :: 0 <= j < |body| ==> !OccursAt(d, body + d, j)
  {
    var s := body + d;
    assert OccursAt(d, s, |body|);
    if forall j :: 0 <= j < |body| ==> !OccursAt(d, s, j) {
      FindIs(d, s, |body|);
    }
  }

  lemma CleanLf(body: Buf)
    ensures Clean(body, [LF]) <==> LF !in body
  {
    CleanIff(body, [LF]);
    var s := body + [LF];
    forall j | 0 <= j < |body|
      ensures OccursAt([LF], s, j) <==> body[j] == LF
    {
      assert s[j..j + 1] == [body[j]];
    }
  }

  predicate CrLfAt(body: Buf, j: nat) {
    j + 1 < |body| && body[j] == CR && body[j + 1] == LF
  }

  /** A body may hold CR and LF as long as they are not next to each other in that order; a trailing CR is harmless. */
  lemma CleanCrLf(body: Buf)
    ensures Clean(body, [CR, LF]) <==> forall j :: 0 <= j < |body| ==> !CrLfAt(body, j)
  {
    CleanIff(body, [CR, LF]);
    var s := body + [CR, LF];
    forall j | 0 <= j < |body|
      ensures OccursAt([CR, LF], s, j) <==> CrLfAt(body, j)
    {
      assert s[j..j + 2] == [s[j], s[j + 1]];
    }
    if Clean(body, [CR, LF]) {
      assert forall j :: 0 <= j < |body| ==> !OccursAt([CR, LF], s, j) && !CrLfAt(body, j);
    }
  }

  lemma {:induction false} TextParsesIff(bodies: seq<Buf>, d: Buf)
    requires |d| > 0
    ensures Parses(TextMode(d), (), TerminateAll(bodies, d)) <==> forall i :: 0 <= i < |bodies| ==> Clean(bodies[i], d)
    decreases |bodies|
  {
    if |bodies| > 0 {
      assert TerminateAll(bodies, d)[1..] == TerminateAll(bodies[1..], d);
      TextParsesIff(bodies[1..], d);
      assert forall i :: 0 <= i < |bodies| - 1 ==> bodies[1..][i] == bodies[i + 1];
      assert forall i :: 0 < i < |bodies| ==> bodies[i] == bodies[1..][i - 1];
    }
  }

  /** Terminated bodies come back unchanged from the stream exactly when each is clean. */
  lemma TextRoundTripIff(bodies: seq<Buf>, d: Buf)
    requires |d| > 0
    ensures SplitsInto(TextMode(d), (), Concat(TerminateAll(bodies, d)), TerminateAll(bodies, d))
       <==> forall i :: 0 <= i < |bodies| ==> Clean(bodies[i], d)
  {
    RoundTripIff(TextMode(d), (), TerminateAll(bodies, d));
    TextParsesIff(bodies, d);
  }

  /** The only occurrence of `d` in `m` is at its end. */
  ghost predicate EndsFirst(m: Buf, d: Buf) {
    |d| <= |m| && Find(d, m) == Some(|m| - |d|)
  }

  /** What delimited splitting means, without a search: every message ends in the delimiter and has no earlier
      occurrence of it, and the rest has none at all. */
  ghost predicate DelimitedSplit(s: Buf, d: Buf, msgs: seq<Buf>, rest: Buf) {
    && s == Concat(msgs) + rest
    && (forall i :: 0 <= i < |msgs| ==> EndsFirst(msgs[i], d))
    && Find(d, rest).None?
  }

  lemma {:induction false} BatchMessages(s: Buf, d: Buf)
    requires |d| > 0
    ensures var p := Split(TextMode(d), (), s);
      && (forall i :: 0 <= i < |p.msgs| ==> EndsFirst(p.msgs[i], d))
      && Find(d, p.rest).None?
    decreases |s|
  {
    var m := TextMode(d);
    FirstBound(m, (), s);
    if First(m, (), s).Some? {
      var n := First(m, (), s).value.0;
      FirstLocal(m, (), s, s[..n]);
      assert EndsFirst(s[..n], d);
      BatchMessages(s[n..], d);
      var p, q := Split(m, (), s), Split(m, (), s[n..]);
      assert p.msgs == [s[..n]] + q.msgs && p.rest == q.rest;
      forall i | 0 <= i < |p.msgs|
        ensures EndsFirst(p.msgs[i], d)
      {
        assert i > 0 ==> p.msgs[i] == q.msgs[i - 1];
      }
    }
  }

  lemma {:induction false} DelimitedIsBatch(s: Buf, d: Buf, msgs: seq<Buf>, rest: Buf)
    requires |d| > 0 && DelimitedSplit(s, d, msgs, rest)
    ensures var p := Split(TextMode(d), (), s); p.msgs == msgs && p.rest == rest
    decreases |msgs|
  {
    if |msgs| > 0 {
      var m, n := TextMode(d), |msgs[0]|;
      var tail := Concat(msgs[1..]) + rest;
      Assoc(msgs[0], Concat(msgs[1..]), rest);
      assert s == msgs[0] + tail && s[..n] == msgs[0] && s[n..] == tail;
      assert EndsFirst(msgs[0], d);
      assert msgs[0][..n] == msgs[0];
      FirstLocal(m, (), msgs[0], s);
      assert First(m, (), s) == Some((n, ()));
      assert Split(m, (), s).msgs == [msgs[0]] + Split(m, (), tail).msgs;
      DelimitedIsBatch(tail, d, msgs[1..], rest);
    } else {
      assert s == rest;
    }
  }

  /** There is only one such split, and it is the batch split. */
  lemma SplitIsDelimited(s: Buf, d: Buf, msgs: seq<Buf>, rest: Buf)
    requires |d| > 0
    ensures var p := Split(TextMode(d), (), s);
      DelimitedSplit(s, d, msgs, rest) <==> p.msgs == msgs && p.rest == rest
  {
    BatchMessages(s, d);
    SplitConcat(TextMode(d), (), s);
    if DelimitedSplit(s, d, msgs, rest) {
      DelimitedIsBatch(s, d, msgs, rest);
    }
  }

  /** Delimiter reads, for any delimiter and any arrival pattern, straddling included. */
  lemma {:induction false} DelimiterReads(d: Buf, evs: seq<ReadEvent>)
    requires |d| > 0
    ensures var r := ReadRun(StartReader(TextMode(d), ()), evs);
      Quiescent(r) ==> DelimitedSplit(r.consumed, d, r.delivered, r.vec)
  {
    var r := ReadRun(StartReader(TextMode(d), ()), evs);
    AgreesWithBatch(TextMode(d), (), evs);
    SplitIsDelimited(r.consumed, d, r.delivered, r.vec);
  }

  // ----- fixed size reads -----

  function NullMsgFrame(fs: (), buf: Buf): ((), nat) {
    ((), 0)
  }

  lemma {:induction false} FixedSizeSplit(h: nat, s: Buf)
    requires h > 0
    ensures var p := Split(Framed(h, NullMsgFrame), (), s);
      (forall i :: 0 <= i < |p.msgs| ==> |p.msgs[i]| == h) && |p.rest| < h
    decreases |s|
  {
    FirstBound(Framed(h, NullMsgFrame), (), s);
    if |s| >= h {
      FixedSizeSplit(h, s[h..]);
    }
  }

  /** With null_msg_frame the stream is cut into pieces of exactly the read size. */
  lemma {:induction false} FixedSizeReads(h: nat, evs: seq<ReadEvent>)
    requires h > 0
    ensures var r := ReadRun(StartReader(Framed(h, NullMsgFrame), ()), evs);
      && (forall i :: 0 <= i < |r.delivered| ==> |r.delivered[i]| == h)
      && r.consumed == Concat(r.delivered) + Remainder(r)
      && (Quiescent(r) ==> |r.vec| < h)
  {
    var r := ReadRun(StartReader(Framed(h, NullMsgFrame), ()), evs);
    AgreesWithBatch(Framed(h, NullMsgFrame), (), evs);
    FixedSizeSplit(h, r.consumed);
  }
}
