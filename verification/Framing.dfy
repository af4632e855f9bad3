/** Reading messages out of a TCP byte stream: `handle_read` with a message frame and `handle_read_until` with a
    delimiter (include/net_ip/detail/tcp_io.hpp), against a batch split of the whole stream. */
module Framing {
  import opened Bytes

  /** What `start_io` was given. A message frame is a function object with state: it sees the buffer just read and
      returns how many more bytes the message needs, zero meaning that the message is complete. */
  datatype Mode<!F> =
    | Framed(headerSize: nat, frame: (F, Buf) -> (F, nat))
    | Delimited(delimiter: Buf)
  {
    /** Every message has at least one byte. */
    predicate Positive() {
      match this
      case Framed(h, _) => h > 0
      case Delimited(d) => |d| > 0
    }
  }

  // ----- the batch view -----

  predicate OccursAt(d: Buf, s: Buf, i: nat) {
    i + |d| <= |s| && s[i..i + |d|] == d
  }

  /** First occurrence of `d` in `s` at or after `from`. */
  function FindFrom(d: Buf, s: Buf, from: nat): (r: Option<nat>)
    requires from <= |s|
    ensures r.Some? ==> from <= r.value && OccursAt(d, s, r.value) && forall j :: from <= j < r.value ==> !OccursAt(d, s, j)
    ensures r.None? ==> forall j :: from <= j ==> !OccursAt(d, s, j)
    decreases |s| - from
  {
    if from + |d| > |s| then None
    else if OccursAt(d, s, from) then Some(from)
    else if from == |s| then None
    else FindFrom(d, s, from + 1)
  }

  function Find(d: Buf, s: Buf): Option<nat> {
    FindFrom(d, s, 0)
  }

  lemma FindIs(d: Buf, s: Buf, i: nat)
    requires OccursAt(d, s, i) && forall j :: 0 <= j < i ==> !OccursAt(d, s, j)
    ensures Find(d, s) == Some(i)
  {
    var r := Find(d, s);
    assert OccursAt(d, s, i);
  }

  /** Follow the frame through `s` from `off` on, the next read being `need` bytes: the end of the message and the
      frame state there, or None while bytes are missing. */
  function FirstFrom<F>(frame: (F, Buf) -> (F, nat), fs: F, need: nat, off: nat, s: Buf): Option<(nat, F)>
    requires off <= |s|
    decreases |s| - off, if need == 0 then 1 else 0
  {
    if |s| - off < need then None
    else
      var (fs', n) := frame(fs, s[off..off + need]);
      if n == 0 then Some((off + need, fs')) else FirstFrom(frame, fs', n, off + need, s)
  }

  /** Length of the first complete message at the front of `s`, and the frame state after it. */
  function First<F>(m: Mode<F>, fs: F, s: Buf): Option<(nat, F)> {
    match m
    case Framed(h, frame) => FirstFrom(frame, fs, h, 0, s)
    case Delimited(d) =>
      match Find(d, s) {
        case None => None
        case Some(i) => Some((i + |d|, fs))
      }
  }

  datatype Parsed<+F> = Parsed(msgs: seq<Buf>, rest: Buf, fs: F)

  lemma {:induction false} FirstFromBound<F>(frame: (F, Buf) -> (F, nat), fs: F, need: nat, off: nat, s: Buf)
    requires off <= |s|
    ensures var r := FirstFrom(frame, fs, need, off, s); r.Some? ==> off + need <= r.value.0 <= |s|
    decreases |s| - off, if need == 0 then 1 else 0
  {
    if |s| - off >= need {
      var (fs', n) := frame(fs, s[off..off + need]);
      if n != 0 {
        FirstFromBound(frame, fs', n, off + need, s);
      }
    }
  }

  lemma FirstBound<F>(m: Mode<F>, fs: F, s: Buf)
    requires m.Positive()
    ensures var r := First(m, fs, s); r.Some? ==> 0 < r.value.0 <= |s|
  {
    if m.Framed? {
      FirstFromBound(m.frame, fs, m.headerSize, 0, s);
    }
  }

  /** All complete messages of a stream that is wholly there. */
  function Split<F>(m: Mode<F>, fs: F, s: Buf): Parsed<F>
    requires m.Positive()
    decreases |s|
  {
    FirstBound(m, fs, s);
    match First(m, fs, s)
    case None => Parsed([], s, fs)
    case Some((n, fs')) =>
      var p := Split(m, fs', s[n..]);
      Parsed([s[..n]] + p.msgs, p.rest, p.fs)
  }

  // ----- facts about the batch view -----

  lemma {:induction false} FirstFromLocal<F>(frame: (F, Buf) -> (F, nat), fs: F, need: nat, off: nat, s: Buf, t: Buf)
    requires off <= |s| && FirstFrom(frame, fs, need, off, s).Some?
    requires FirstFrom(frame, fs, need, off, s).value.0 <= |t| && FirstFrom(frame, fs, need, off, s).value.0 <= |s|
    requires forall i :: 0 <= i < FirstFrom(frame, fs, need, off, s).value.0 ==> s[i] == t[i]
    ensures off <= |t| && FirstFrom(frame, fs, need, off, t) == FirstFrom(frame, fs, need, off, s)
    decreases |s| - off, if need == 0 then 1 else 0
  {
    FirstFromBound(frame, fs, need, off, s);
    assert s[off..off + need] == t[off..off + need];
    var (fs', n) := frame(fs, s[off..off + need]);
    if n != 0 {
      FirstFromLocal(frame, fs', n, off + need, s, t);
    }
  }

  /** Whether a message is complete, and where it ends, depends on its own bytes only: not on what follows. */
  lemma FirstLocal<F>(m: Mode<F>, fs: F, s: Buf, t: Buf)
    requires m.Positive() && First(m, fs, s).Some?
    requires First(m, fs, s).value.0 <= |s| && s[..First(m, fs, s).value.0] <= t
    ensures First(m, fs, t) == First(m, fs, s)
  {
    var n := First(m, fs, s).value.0;
    assert forall i :: 0 <= i < n ==> s[i] == s[..n][i] == t[i];
    match m {
      case Framed(h, frame) => FirstFromLocal(frame, fs, h, 0, s, t);
      case Delimited(d) =>
        var i := Find(d, s).value;
        assert t[i..i + |d|] == s[i..i + |d|];
        forall j | 0 <= j < i
          ensures !OccursAt(d, t, j)
        {
          assert t[j..j + |d|] == s[j..j + |d|];
          assert !OccursAt(d, s, j);
        }
        FindIs(d, t, i);
    }
  }

  /** Splitting a stream in two arrivals: the messages of the front, then those of what it left over and the rest. */
  lemma {:induction false} SplitAppend<F>(m: Mode<F>, fs: F, a: Buf, b: Buf)
    requires m.Positive()
    ensures var p := Split(m, fs, a);
      var q := Split(m, p.fs, p.rest + b);
      Split(m, fs, a + b) == Parsed(p.msgs + q.msgs, q.rest, q.fs)
    decreases |a|
  {
    FirstBound(m, fs, a);
    if First(m, fs, a).Some? {
      var (n, fs') := First(m, fs, a).value;
      assert a[..n] <= a + b;
      FirstLocal(m, fs, a, a + b);
      assert (a + b)[..n] == a[..n] && (a + b)[n..] == a[n..] + b;
      SplitAppend(m, fs', a[n..], b);
      var p := Split(m, fs', a[n..]);
      var q := Split(m, p.fs, p.rest + b);
      Assoc([a[..n]], p.msgs, q.msgs);
    } else {
      var q := Split(m, fs, a + b);
      assert [] + q.msgs == q.msgs;
    }
  }

  /** More bytes never take a message back. */
  lemma SplitPrefix<F>(m: Mode<F>, fs: F, a: Buf, c: Buf)
    requires m.Positive() && a <= c
    ensures Split(m, fs, a).msgs <= Split(m, fs, c).msgs
  {
    assert c == a + c[|a|..];
    SplitAppend(m, fs, a, c[|a|..]);
  }

  lemma Glue(s: Buf, n: nat, msgs: seq<Buf>, rest: Buf)
    requires n <= |s| && s[n..] == Concat(msgs) + rest
    ensures s == Concat([s[..n]] + msgs) + rest
  {
    assert ([s[..n]] + msgs)[1..] == msgs;
    Assoc(s[..n], Concat(msgs), rest);
    assert s == s[..n] + s[n..];
  }

  lemma {:induction false} SplitConcat<F>(m: Mode<F>, fs: F, s: Buf)
    requires m.Positive()
    ensures var p := Split(m, fs, s); s == Concat(p.msgs) + p.rest
    decreases |s|
  {
    FirstBound(m, fs, s);
    if First(m, fs, s).Some? {
      var (n, fs') := First(m, fs, s).value;
      SplitConcat(m, fs', s[n..]);
      var p := Split(m, fs', s[n..]);
      Glue(s, n, p.msgs, p.rest);
    }
  }

  /** Each of `msgs`, alone, is exactly one message for the frame state that the ones before it leave. */
  ghost predicate Parses<F>(m: Mode<F>, fs: F, msgs: seq<Buf>) {
    |msgs| == 0 ||
    (First(m, fs, msgs[0]).Some? && First(m, fs, msgs[0]).value.0 == |msgs[0]| &&
     Parses(m, First(m, fs, msgs[0]).value.1, msgs[1..]))
  }

  ghost predicate SplitsInto<F>(m: Mode<F>, fs: F, s: Buf, msgs: seq<Buf>)
    requires m.Positive()
  {
    Split(m, fs, s).msgs == msgs && Split(m, fs, s).rest == []
  }

  /** A list of messages survives concatenation and splitting exactly when each is one message in its turn. */
  lemma {:induction false} RoundTripIff<F>(m: Mode<F>, fs: F, msgs: seq<Buf>)
    requires m.Positive()
    ensures SplitsInto(m, fs, Concat(msgs), msgs) <==> Parses(m, fs, msgs)
    decreases |msgs|
  {
    var s := Concat(msgs);
    FirstBound(m, fs, s);
    if |msgs| == 0 {
    } else if First(m, fs, msgs[0]).Some? && First(m, fs, msgs[0]).value.0 == |msgs[0]| {
      var (n, fs') := First(m, fs, msgs[0]).value;
      assert msgs[0][..n] == msgs[0] <= s;
      FirstLocal(m, fs, msgs[0], s);
      assert s[..n] == msgs[0] && s[n..] == Concat(msgs[1..]);
      RoundTripIff(m, fs', msgs[1..]);
      var p := Split(m, fs', s[n..]);
      assert ([msgs[0]] + p.msgs)[1..] == p.msgs;
      assert [msgs[0]] + msgs[1..] == msgs;
    } else if SplitsInto(m, fs, s, msgs) {
      var n := First(m, fs, s).value.0;
      assert msgs[0] == s[..n];
      FirstLocal(m, fs, s, s[..n]);
      assert false;
    }
  }

  /** The non-zero values that the frame returns for the message at the front of `s`. */
  function Returns<F>(frame: (F, Buf) -> (F, nat), fs: F, need: nat, off: nat, s: Buf): seq<nat>
    requires off <= |s|
    decreases |s| - off, if need == 0 then 1 else 0
  {
    if |s| - off < need then []
    else
      var (fs', n) := frame(fs, s[off..off + need]);
      if n == 0 then [] else [n] + Returns(frame, fs', n, off + need, s)
  }

  function Sum(ns: seq<nat>): nat {
    if |ns| == 0 then 0 else ns[0] + Sum(ns[1..])
  }

  lemma {:induction false} SumLast(ns: seq<nat>, n: nat)
    ensures Sum(ns + [n]) == Sum(ns) + n
  {
    if |ns| == 0 {
      assert [] + [n] == [n] && [n][1..] == [];
    } else {
      assert (ns + [n])[1..] == ns[1..] + [n];
      SumLast(ns[1..], n);
    }
  }

  /** A framed message is the header plus everything the frame asked for. */
  lemma {:induction false} MessageLength<F>(frame: (F, Buf) -> (F, nat), fs: F, need: nat, off: nat, s: Buf)
    requires off <= |s| && FirstFrom(frame, fs, need, off, s).Some?
    ensures FirstFrom(frame, fs, need, off, s).value.0 == off + need + Sum(Returns(frame, fs, need, off, s))
    decreases |s| - off, if need == 0 then 1 else 0
  {
    var (fs', n) := frame(fs, s[off..off + need]);
    if n != 0 {
      MessageLength(frame, fs', n, off + need, s);
    }
  }
}
