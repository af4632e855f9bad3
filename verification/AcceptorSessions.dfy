/** Which session of the acceptor an accept or a callback belongs to (include/net_ip/detail/tcp_acceptor.hpp), and when
    a session is safe from its predecessors.

    A start that gets past the gate begins a session. A book kept beside the acceptor notes for everything under way the
    session it belongs to: an accept belongs to the session in which it was begun, since start_accept uses the socket
    there is at that time; the error callback of an accept to the session of the accept; a stop in progress to the
    session that it stopped. */
module AcceptorSessions {
  import opened Bytes
  import opened NetEntity
  import opened Acceptor

  datatype Book = Book(
    gen: nat,                // sessions so far
    accepts: multiset<nat>,  // sessions of the outstanding accepts
    marks: seq<nat>          // session of each frame, top first
  )

  datatype Booked = Booked(acc: Acc, book: Book)

  /** An event; the completion of an accept names the session of the accept. */
  datatype Act = Act(ev: AccEvent, g: nat)

  function FreshBooked(): Booked {
    Booked(FreshAcc(), Book(0, multiset{}, []))
  }

  predicate Listed(b: Book, a: Act) {
    a.ev.Accepted? ==> a.g in b.accepts
  }

  /** `n` marks for session `g` on top. */
  function Marks(n: int, g: nat, rest: seq<nat>): seq<nat> {
    seq(if n <= 0 then 0 else n, _ => g) + rest
  }

  /** The book after the step from `s` to `t`; the frames that the step pushed get the mark of what pushed them. */
  function Note(b: Book, s: Acc, t: Acc, a: Act): Book {
    var pushed := |t.frames| - |s.frames|;
    match a.ev
    case Start(bindOk) =>
      if s.started then b
      else if bindOk then Book(b.gen + 1, b.accepts + multiset{b.gen + 1}, b.marks)
      else Book(b.gen + 1, b.accepts, Marks(pushed, b.gen + 1, b.marks))
    case Accepted(_) => Book(b.gen, b.accepts - multiset{a.g}, Marks(pushed, a.g, b.marks))
    case Return =>
      if |s.frames| == 0 || |b.marks| == 0 then b
      else
        Book(b.gen, if s.frames[0].StartAccept? then b.accepts + multiset{b.gen} else b.accepts,
             Marks(pushed + 1, if s.frames[0].StopLoop? then b.marks[0] else b.gen, b.marks[1..]))
    case _ => b.(marks := Marks(pushed, b.gen, b.marks))
  }

  function BookedStep(t: Booked, a: Act): Booked {
    if Listed(t.book, a) then
      var s := AccStep(t.acc, a.ev);
      Booked(s, Note(t.book, t.acc, s, a))
    else t
  }

  function BookedRun(t: Booked, acts: seq<Act>): Booked
    decreases |acts|
  {
    if |acts| == 0 then t else BookedRun(BookedStep(t, acts[0]), acts[1..])
  }

  /** The book is right about what is under way. */
  ghost predicate Matches(t: Booked) {
    |t.book.accepts| == t.acc.accepting && |t.book.marks| == |t.acc.frames|
  }

  /** Nothing under way belongs to a session to come. */
  ghost predicate Past(b: Book) {
    && (forall g :: g in b.accepts ==> g <= b.gen)
    && (forall i :: 0 <= i < |b.marks| ==> b.marks[i] <= b.gen)
  }

  lemma MarksAre(n: int, g: nat, rest: seq<nat>)
    ensures var m := Marks(n, g, rest);
      && |m| == (if n <= 0 then 0 else n) + |rest|
      && forall i :: 0 <= i < |m| ==> m[i] == if i < |m| - |rest| then g else rest[i - (|m| - |rest|)]
  {
  }

  lemma MarksPast(b: Book, n: int, g: nat)
    requires Past(b) && g <= b.gen
    ensures Past(b.(marks := Marks(n, g, b.marks)))
  {
    MarksAre(n, g, b.marks);
  }

  lemma ReturnPast(b: Book, s: Acc, t: Acc)
    requires Past(b)
    ensures Past(Note(b, s, t, Act(Return, 0)))
  {
    if |s.frames| > 0 && |b.marks| > 0 {
      var popped := Book(b.gen, if s.frames[0].StartAccept? then b.accepts + multiset{b.gen} else b.accepts, b.marks[1..]);
      MarksPast(popped, |t.frames| - |s.frames| + 1, if s.frames[0].StopLoop? then b.marks[0] else b.gen);
    }
  }

  lemma NotePast(b: Book, s: Acc, t: Acc, a: Act)
    requires Past(b) && Listed(b, a)
    ensures Past(Note(b, s, t, a))
  {
    var pushed := |t.frames| - |s.frames|;
    match a.ev {
      case Start(_) => MarksPast(b.(gen := b.gen + 1), pushed, b.gen + 1);
      case Accepted(_) =>
        var rest := b.(accepts := b.accepts - multiset{a.g});
        assert forall g :: g in rest.accepts ==> g in b.accepts;
        MarksPast(rest, pushed, a.g);
      case Return => ReturnPast(b, s, t);
      case _ => MarksPast(b, pushed, b.gen);
    }
  }

  lemma {:induction false} PastRun(t: Booked, acts: seq<Act>)
    requires Past(t.book)
    ensures Past(BookedRun(t, acts).book)
    decreases |acts|
  {
    if |acts| > 0 {
      if Listed(t.book, acts[0]) {
        NotePast(t.book, t.acc, AccStep(t.acc, acts[0].ev), acts[0]);
      }
      PastRun(BookedStep(t, acts[0]), acts[1..]);
    }
  }

  /** What the loop of stop() pushes: the rest of the loop under a notification, or the end of stop(). */
  lemma {:induction false} LoopPushes(s: Acc, rest: seq<nat>)
    ensures var t := LoopOn(s, rest);
      && t.accepting == s.accepting && t.started == s.started
      && (t.frames == [CloseAcceptor] + s.frames
          || exists h: nat, more: seq<nat> :: |more| < |rest| && t.frames == [EraseThenClose(h), StopLoop(more)] + s.frames)
    decreases |rest|
  {
    if |rest| > 0 {
      if rest[0] in s.on {
        var h, more := rest[0], rest[1..];
        assert LoopOn(s, rest).frames == [EraseThenClose(h), StopLoop(more)] + s.frames;
      } else {
        LoopPushes(s, rest[1..]);
      }
    }
  }

  lemma StopPushes(s: Acc)
    ensures var t := StopAcc(s); !t.started && t.accepting == s.accepting && |t.frames| >= |s.frames|
  {
    if s.started {
      LoopPushes(s.(started := false), s.live);
    }
  }

  lemma ReturnPushes(s: Acc)
    requires |s.frames| > 0
    ensures var t := ReturnFrom(s);
      && t.accepting == s.accepting + (if s.frames[0].StartAccept? then 1 else 0)
      && |t.frames| >= |s.frames| - 1
  {
    var t := s.(frames := s.frames[1..]);
    match s.frames[0] {
      case StopLoop(rest) => LoopPushes(t, rest);
      case StopAfterError => StopPushes(t);
      case _ =>
    }
  }

  lemma ReturnMatches(t: Booked)
    requires Matches(t)
    ensures Matches(BookedStep(t, Act(Return, 0)))
  {
    if |t.acc.frames| > 0 {
      ReturnPushes(t.acc);
      var g := if t.acc.frames[0].StopLoop? then t.book.marks[0] else t.book.gen;
      MarksAre(|ReturnFrom(t.acc).frames| - |t.acc.frames| + 1, g, t.book.marks[1..]);
    }
  }

  lemma StepMatches(t: Booked, a: Act)
    requires Matches(t)
    ensures Matches(BookedStep(t, a))
  {
    if Listed(t.book, a) {
      var s := AccStep(t.acc, a.ev);
      var pushed := |s.frames| - |t.acc.frames|;
      match a.ev {
        case Start(_) => MarksAre(pushed, t.book.gen + 1, t.book.marks);
        case Stop =>
          StopPushes(t.acc);
          MarksAre(pushed, t.book.gen, t.book.marks);
        case Accepted(_) =>
          assert |t.book.accepts - multiset{a.g}| == |t.book.accepts| - 1;
          MarksAre(pushed, a.g, t.book.marks);
        case Return => ReturnMatches(t);
        case _ => MarksAre(pushed, t.book.gen, t.book.marks);
      }
    }
  }

  /** The book stays right in every run. */
  lemma {:induction false} RunMatches(t: Booked, acts: seq<Act>)
    requires Matches(t)
    ensures Matches(BookedRun(t, acts))
    decreases |acts|
  {
    if |acts| > 0 {
      StepMatches(t, acts[0]);
      RunMatches(BookedStep(t, acts[0]), acts[1..]);
    }
  }

  // ----- when a session is hit by an earlier one -----

  /** A frame at whose return the acceptor is stopped, or its socket closed. */
  predicate Strikes(f: Frame) {
    f.StopAfterError? || f.CloseAcceptor?
  }

  /** The step stops the running session, or closes its socket, on account of an earlier one. */
  predicate Cuts(t: Booked, a: Act) {
    && a.ev.Return? && t.acc.started
    && |t.acc.frames| > 0 && Strikes(t.acc.frames[0])
    && |t.book.marks| > 0 && t.book.marks[0] < t.book.gen
  }

  predicate CutShort(t: Booked, acts: seq<Act>)
    decreases |acts|
  {
    |acts| > 0 && (Cuts(t, acts[0]) || CutShort(BookedStep(t, acts[0]), acts[1..]))
  }

  /** A frame that strikes, or leads to one that does. */
  predicate Threatens(f: Frame) {
    Strikes(f) || f.StopLoop?
  }

  /** No accept is outstanding, and the caller is not inside the error callback of an accept or of a failed start, nor
      inside a callback of stop(). */
  ghost predicate Clean(t: Booked) {
    t.acc.accepting == 0 && forall f :: f in t.acc.frames ==> !Threatens(f)
  }

  lemma GenGrows(t: Booked, a: Act)
    ensures t.book.gen <= BookedStep(t, a).book.gen
    ensures BookedStep(t, a).book.gen != t.book.gen ==> a.ev.Start?
  {
  }

  lemma {:induction false} GenGrowsRun(t: Booked, acts: seq<Act>)
    ensures t.book.gen <= BookedRun(t, acts).book.gen
    decreases |acts|
  {
    if |acts| > 0 {
      GenGrows(t, acts[0]);
      GenGrowsRun(BookedStep(t, acts[0]), acts[1..]);
    }
  }

  /** Everything that could hit the session belongs to it. */
  ghost predicate OwnFrames(fs: seq<Frame>, ms: seq<nat>, g: nat) {
    |ms| == |fs| && forall i :: 0 <= i < |fs| && Threatens(fs[i]) ==> ms[i] == g
  }

  ghost predicate Own(t: Booked) {
    (forall g :: g in t.book.accepts ==> g == t.book.gen) && OwnFrames(t.acc.frames, t.book.marks, t.book.gen)
  }

  lemma OwnPush(ps: seq<Frame>, fs: seq<Frame>, ms: seq<nat>, g: nat)
    requires OwnFrames(fs, ms, g)
    ensures OwnFrames(ps + fs, Marks(|ps|, g, ms), g)
  {
    MarksAre(|ps|, g, ms);
    forall i | |ps| <= i < |ps + fs| && Threatens((ps + fs)[i])
      ensures ms[i - |ps|] == g
    {
      assert (ps + fs)[i] == fs[i - |ps|];
    }
  }

  /** Frames pushed by the loop of stop() for the present session. */
  lemma OwnLoop(s: Acc, rest: seq<nat>, ms: seq<nat>, g: nat)
    requires OwnFrames(s.frames, ms, g)
    ensures var t := LoopOn(s, rest); OwnFrames(t.frames, Marks(|t.frames| - |s.frames|, g, ms), g)
  {
    LoopPushes(s, rest);
    var t := LoopOn(s, rest);
    if t.frames == [CloseAcceptor] + s.frames {
      OwnPush([CloseAcceptor], s.frames, ms, g);
    } else {
      var h: nat, more: seq<nat> :| |more| < |rest| && t.frames == [EraseThenClose(h), StopLoop(more)] + s.frames;
      OwnPush([EraseThenClose(h), StopLoop(more)], s.frames, ms, g);
    }
  }

  lemma OwnStop(s: Acc, ms: seq<nat>, g: nat)
    requires OwnFrames(s.frames, ms, g)
    ensures var t := StopAcc(s); OwnFrames(t.frames, Marks(|t.frames| - |s.frames|, g, ms), g)
  {
    if s.started {
      OwnLoop(s.(started := false), s.live, ms, g);
    }
  }

  lemma OwnPop(fs: seq<Frame>, ms: seq<nat>, g: nat)
    requires OwnFrames(fs, ms, g) && |fs| > 0
    ensures OwnFrames(fs[1..], ms[1..], g) && (Threatens(fs[0]) ==> ms[0] == g)
  {
    assert forall i :: 0 <= i < |fs[1..]| ==> fs[1..][i] == fs[i + 1] && ms[1..][i] == ms[i + 1];
  }

  /** The frames after a return, which all belong to the session if those before did. */
  lemma OwnReturnFrames(s: Acc, ms: seq<nat>, g: nat)
    requires OwnFrames(s.frames, ms, g) && |s.frames| > 0
    ensures var t := ReturnFrom(s);
      OwnFrames(t.frames, Marks(|t.frames| - |s.frames| + 1, g, ms[1..]), g)
  {
    var popped := s.(frames := s.frames[1..]);
    OwnPop(s.frames, ms, g);
    match s.frames[0] {
      case StopLoop(rest) => OwnLoop(popped, rest, ms[1..], g);
      case StopAfterError => OwnStop(popped, ms[1..], g);
      case _ => OwnPush([], popped.frames, ms[1..], g);
    }
  }

  lemma OwnReturn(t: Booked)
    requires Own(t)
    ensures Own(BookedStep(t, Act(Return, 0)))
  {
    if |t.acc.frames| > 0 {
      OwnPop(t.acc.frames, t.book.marks, t.book.gen);
      OwnReturnFrames(t.acc, t.book.marks, t.book.gen);
    }
  }

  lemma OwnHandler(t: Booked, a: Act)
    requires Own(t) && (a.ev.HandlerStartIo? || a.ev.HandlerStopIo? || a.ev.ChainEnds?)
    ensures Own(BookedStep(t, a))
  {
    OwnPush([EraseThenClose(a.ev.h)], t.acc.frames, t.book.marks, t.book.gen);
    var s := AccStep(t.acc, a.ev);
    assert s.frames == t.acc.frames || s.frames == [EraseThenClose(a.ev.h)] + t.acc.frames;
  }

  lemma OwnStep(t: Booked, a: Act)
    requires Own(t) && BookedStep(t, a).book.gen == t.book.gen
    ensures Own(BookedStep(t, a)) && !Cuts(t, a)
  {
    match a.ev {
      case Start(_) =>
      case Stop => OwnStop(t.acc, t.book.marks, t.book.gen);
      case Accepted(ok) => OwnPush([if ok then StartAccept else StopAfterError], t.acc.frames, t.book.marks, t.book.gen);
      case Return => OwnReturn(t);
      case _ => OwnHandler(t, a);
    }
  }

  lemma {:induction false} OwnRun(t: Booked, acts: seq<Act>)
    requires Own(t) && BookedRun(t, acts).book.gen == t.book.gen
    ensures !CutShort(t, acts)
    decreases |acts|
  {
    if |acts| > 0 {
      var u := BookedStep(t, acts[0]);
      GenGrows(t, acts[0]);
      GenGrowsRun(u, acts[1..]);
      OwnStep(t, acts[0]);
      OwnRun(u, acts[1..]);
    }
  }

  /** A run that cuts the session short, with one more step before it. */
  lemma CutLater(t: Booked, a: Act, rest: seq<Act>) returns (acts: seq<Act>)
    requires !a.ev.Start? && CutShort(BookedStep(t, a), rest)
    requires BookedRun(BookedStep(t, a), rest).book.gen == BookedStep(t, a).book.gen
    ensures BookedRun(t, acts).book.gen == t.book.gen && CutShort(t, acts)
  {
    acts := [a] + rest;
    assert acts[1..] == rest;
    GenGrows(t, a);
  }

  lemma CutNow(t: Booked) returns (acts: seq<Act>)
    requires Cuts(t, Act(Return, 0))
    ensures BookedRun(t, acts).book.gen == t.book.gen && CutShort(t, acts)
  {
    var a := Act(Return, 0);
    acts := [a];
    assert BookedRun(t, acts) == BookedRun(BookedStep(t, a), []) by {
      assert acts[1..] == [];
    }
    GenGrows(t, a);
  }

  /** How many returns the frames can still give rise to, at most. */
  function Weight(fs: seq<Frame>): nat {
    if |fs| == 0 then 0 else (if fs[0].StopLoop? then 2 * |fs[0].rest| + 2 else 1) + Weight(fs[1..])
  }

  lemma WeightPush(f: Frame, fs: seq<Frame>)
    ensures Weight([f] + fs) == (if f.StopLoop? then 2 * |f.rest| + 2 else 1) + Weight(fs)
  {
    assert ([f] + fs)[1..] == fs;
  }

  /** Every frame has a mark, all of earlier sessions. */
  ghost predicate OldFrames(t: Booked) {
    |t.book.marks| == |t.acc.frames| && forall i :: 0 <= i < |t.book.marks| ==> t.book.marks[i] < t.book.gen
  }

  lemma LoopWeight(s: Acc, rest: seq<nat>)
    ensures var t := LoopOn(s, rest);
      Weight(t.frames) < 2 * |rest| + 2 + Weight(s.frames) && exists f :: f in t.frames && Threatens(f)
  {
    LoopPushes(s, rest);
    var t := LoopOn(s, rest);
    if t.frames == [CloseAcceptor] + s.frames {
      WeightPush(CloseAcceptor, s.frames);
      assert CloseAcceptor in t.frames;
    } else {
      var h: nat, more: seq<nat> :| |more| < |rest| && t.frames == [EraseThenClose(h), StopLoop(more)] + s.frames;
      assert t.frames == [EraseThenClose(h)] + ([StopLoop(more)] + s.frames);
      WeightPush(StopLoop(more), s.frames);
      WeightPush(EraseThenClose(h), [StopLoop(more)] + s.frames);
      assert StopLoop(more) in t.frames;
    }
  }

  /** The return of a callback in the loop of stop(), and of one that leads to nothing. */
  lemma LoopReturn(t: Booked)
    requires t.acc.started && OldFrames(t) && |t.acc.frames| > 0 && t.acc.frames[0].StopLoop?
    ensures var u := BookedStep(t, Act(Return, 0));
      && u.acc.started && u.book.gen == t.book.gen && OldFrames(u)
      && Weight(u.acc.frames) < Weight(t.acc.frames) && exists f :: f in u.acc.frames && Threatens(f)
  {
    var s, ms, rest := t.acc, t.book.marks, t.acc.frames[0].rest;
    var popped := s.(frames := s.frames[1..]);
    LoopPushes(popped, rest);
    LoopWeight(popped, rest);
    MarksAre(|LoopOn(popped, rest).frames| - |s.frames| + 1, ms[0], ms[1..]);
  }

  lemma PlainReturn(t: Booked)
    requires t.acc.started && OldFrames(t) && |t.acc.frames| > 0 && !Threatens(t.acc.frames[0])
    requires exists f :: f in t.acc.frames && Threatens(f)
    ensures var u := BookedStep(t, Act(Return, 0));
      && u.acc.started && u.book.gen == t.book.gen && OldFrames(u)
      && Weight(u.acc.frames) < Weight(t.acc.frames) && exists f :: f in u.acc.frames && Threatens(f)
  {
    var s, ms := t.acc, t.book.marks;
    var u := BookedStep(t, Act(Return, 0));
    assert s.frames == [s.frames[0]] + s.frames[1..];
    assert u.acc.frames == s.frames[1..] && u.book.marks == ms[1..];
    var f :| f in s.frames && Threatens(f);
    assert f in u.acc.frames;
  }

  /** Letting all callbacks return gets to one that strikes. */
  lemma {:induction false} FramesCut(t: Booked) returns (acts: seq<Act>)
    requires t.acc.started && OldFrames(t) && exists f :: f in t.acc.frames && Threatens(f)
    ensures BookedRun(t, acts).book.gen == t.book.gen && CutShort(t, acts)
    decreases Weight(t.acc.frames)
  {
    if Strikes(t.acc.frames[0]) {
      acts := CutNow(t);
    } else {
      if t.acc.frames[0].StopLoop? {
        LoopReturn(t);
      } else {
        PlainReturn(t);
      }
      var rest := FramesCut(BookedStep(t, Act(Return, 0)));
      acts := CutLater(t, Act(Return, 0), rest);
    }
  }

  /** So does an outstanding accept that fails. */
  lemma AcceptCuts(t: Booked, g: nat) returns (acts: seq<Act>)
    requires t.acc.started && t.acc.accepting > 0 && g in t.book.accepts && g < t.book.gen
    ensures BookedRun(t, acts).book.gen == t.book.gen && CutShort(t, acts)
  {
    var a := Act(Accepted(false), g);
    var u := BookedStep(t, a);
    assert u.acc.frames == [StopAfterError] + t.acc.frames;
    MarksAre(1, g, t.book.marks);
    var rest := CutNow(u);
    acts := CutLater(t, a, rest);
  }

  lemma StartsFrom(t: Booked)
    requires !t.acc.started
    ensures var u := BookedStep(t, Act(Start(true), 0));
      && u.acc.started && u.acc.frames == t.acc.frames && u.acc.accepting == t.acc.accepting + 1
      && u.book == Book(t.book.gen + 1, t.book.accepts + multiset{t.book.gen + 1}, t.book.marks)
  {
  }

  /** The exact condition for a session of the acceptor to be safe from its predecessors, which the caller of start()
      can check: in whatever run follows, until the next start, it is never stopped, and its socket never closed, on
      account of an earlier session, exactly if no accept was outstanding and the caller was not inside a callback that
      leads to a stop or is part of one. */
  lemma {:induction false} SafeFromEarlierIff(before: seq<Act>)
    requires !BookedRun(FreshBooked(), before).acc.started
    ensures var t := BookedRun(FreshBooked(), before);
      var u := BookedStep(t, Act(Start(true), 0));
      (forall acts :: BookedRun(u, acts).book.gen == u.book.gen ==> !CutShort(u, acts)) <==> Clean(t)
  {
    var t := BookedRun(FreshBooked(), before);
    var u := BookedStep(t, Act(Start(true), 0));
    PastRun(FreshBooked(), before);
    RunMatches(FreshBooked(), before);
    StartsFrom(t);
    if Clean(t) {
      assert |t.book.accepts| == 0;
      forall acts | BookedRun(u, acts).book.gen == u.book.gen
        ensures !CutShort(u, acts)
      {
        OwnRun(u, acts);
      }
    } else if t.acc.accepting > 0 {
      var g :| g in t.book.accepts;
      var acts := AcceptCuts(u, g);
    } else {
      var acts := FramesCut(u);
    }
  }

  /** It happens: the aborted accept of one session stops the next, whose own accept is left outstanding. */
  lemma StaleAcceptStopsNewSession()
    ensures var again := AccStep(AccStep(AccStep(AccStep(FreshAcc(), Start(true)), Stop), Return), Start(true));
      var t := AccStep(AccStep(again, Accepted(false)), Return);
      again.started && again.accepting == 2 && !t.started && t.accepting == 1
  {
    var again := AccStep(AccStep(AccStep(AccStep(FreshAcc(), Start(true)), Stop), Return), Start(true));
    assert again.frames == [] && again.live == [];
    assert AccStep(again, Accepted(false)).frames == [StopAfterError];
  }
}
