/** Which session of the connector an operation, a read chain or a callback belongs to
    (include/net_ip/detail/tcp_connector.hpp), and when a session is safe from its predecessors.

    A start that gets past the gate begins a session. A book kept beside the connector notes for everything under way
    the session whose start began it: an operation belongs to the session of the start that began its chain, a read
    chain to the session in which start_io was called, a callback to what it reports. */
module ConnectorSessions {
  import opened Bytes
  import opened NetEntity
  import opened Connector

  datatype Book = Book(
    gen: nat,                   // sessions so far
    resolving: multiset<nat>,   // sessions of the outstanding operations
    connecting: multiset<nat>,
    waiting: multiset<nat>,
    chains: map<nat, nat>,      // session of each running read chain, by handler
    marks: seq<nat>             // session of each frame, top first
  )

  datatype Booked = Booked(conn: Conn, book: Book)

  /** An event; a completion names the session of the operation that completes. */
  datatype Act = Act(ev: ConnEvent, g: nat)

  function FreshBooked(resolved: bool): Booked {
    Booked(FreshConn(resolved), Book(0, multiset{}, multiset{}, multiset{}, map[], []))
  }

  /** The completing operation is outstanding, as far as the book knows. */
  predicate Listed(b: Book, a: Act) {
    && (a.ev.ResolveDone? ==> a.g in b.resolving)
    && (a.ev.ConnectDone? ==> a.g in b.connecting)
    && (a.ev.TimerDone? ==> a.g in b.waiting)
  }

  function Mark(b: Book, g: nat): Book {
    b.(marks := [g] + b.marks)
  }

  function NoteReturn(b: Book, s: Conn, throws: bool): Book
    requires |s.frames| > 0 && |b.marks| > 0
  {
    var g, t := b.marks[0], b.(marks := b.marks[1..]);
    match s.frames[0]
    case AfterConnectError =>
      if !s.started || s.shuttingDown then t
      else if throws then Mark(t, g)
      else t.(waiting := t.waiting + multiset{g})
    case NotifyClose(_) => Mark(t, g)
    case _ => t
  }

  /** What the event adds to the book and strikes from it. */
  function Note(b: Book, s: Conn, a: Act): Book {
    match a.ev
    case Start =>
      if s.started then b
      else if s.resolved then b.(gen := b.gen + 1, connecting := b.connecting + multiset{b.gen + 1})
      else b.(gen := b.gen + 1, resolving := b.resolving + multiset{b.gen + 1})
    case Stop => b
    case ResolveDone(ok, _) =>
      var t := b.(resolving := b.resolving - multiset{a.g});
      if ok then t.(connecting := t.connecting + multiset{a.g}) else Mark(t, a.g)
    case ConnectDone(ok) =>
      var t := b.(connecting := b.connecting - multiset{a.g});
      if ok then t else Mark(t, a.g)
    case TimerDone(ok) =>
      var t := b.(waiting := b.waiting - multiset{a.g});
      if ok then t.(connecting := t.connecting + multiset{a.g}) else t
    case HandlerStartIo(h, err) =>
      if h >= s.io.next || h in s.io.on then b
      else if err || h in s.io.shut then Mark(b, b.gen)
      else b.(chains := b.chains[h := b.gen])
    case HandlerStopIo(h) => if h in s.io.on then Mark(b, b.gen) else b
    case ChainEnds(h) => if h in b.chains then Mark(b.(chains := b.chains - {h}), b.chains[h]) else b
    case Return(throws) => if |s.frames| > 0 && |b.marks| > 0 then NoteReturn(b, s, throws) else b
  }

  function BookedStep(t: Booked, a: Act): Booked {
    if Listed(t.book, a) then Booked(ConnStep(t.conn, a.ev), Note(t.book, t.conn, a)) else t
  }

  function BookedRun(t: Booked, acts: seq<Act>): Booked
    decreases |acts|
  {
    if |acts| == 0 then t else BookedRun(BookedStep(t, acts[0]), acts[1..])
  }

  /** The book is right about what is under way. */
  ghost predicate Matches(t: Booked) {
    && |t.book.resolving| == t.conn.ops.resolving && |t.book.connecting| == t.conn.ops.connecting
    && |t.book.waiting| == t.conn.ops.waiting
    && t.book.chains.Keys == t.conn.io.chain && |t.book.marks| == |t.conn.frames|
  }

  /** Whatever is under way belongs to a session from number `lo` to the present one. */
  ghost predicate Since(b: Book, lo: nat) {
    && lo <= b.gen
    && (forall g :: g in b.resolving ==> lo <= g <= b.gen)
    && (forall g :: g in b.connecting ==> lo <= g <= b.gen)
    && (forall g :: g in b.waiting ==> lo <= g <= b.gen)
    && (forall h :: h in b.chains ==> lo <= b.chains[h] <= b.gen)
    && (forall i :: 0 <= i < |b.marks| ==> lo <= b.marks[i] <= b.gen)
  }

  lemma MarkSince(b: Book, g: nat, lo: nat)
    requires Since(b, lo) && lo <= g <= b.gen
    ensures Since(Mark(b, g), lo)
  {
  }

  lemma PopSince(b: Book, lo: nat)
    requires Since(b, lo) && |b.marks| > 0
    ensures Since(b.(marks := b.marks[1..]), lo) && lo <= b.marks[0] <= b.gen
  {
  }

  lemma ReturnSince(b: Book, s: Conn, throws: bool, lo: nat)
    requires Since(b, lo) && |s.frames| > 0 && |b.marks| > 0
    ensures Since(NoteReturn(b, s, throws), lo)
  {
    PopSince(b, lo);
    MarkSince(b.(marks := b.marks[1..]), b.marks[0], lo);
  }

  lemma ResolvedSince(b: Book, s: Conn, g: nat, ok: bool, found: bool, lo: nat)
    requires Since(b, lo) && g in b.resolving
    ensures Since(Note(b, s, Act(ResolveDone(ok, found), g)), lo)
  {
    var t := b.(resolving := b.resolving - multiset{g});
    assert forall x :: x in t.resolving ==> x in b.resolving;
    if !ok {
      MarkSince(t, g, lo);
    }
  }

  lemma ConnectedSince(b: Book, s: Conn, g: nat, ok: bool, lo: nat)
    requires Since(b, lo) && g in b.connecting
    ensures Since(Note(b, s, Act(ConnectDone(ok), g)), lo)
  {
    var t := b.(connecting := b.connecting - multiset{g});
    assert forall x :: x in t.connecting ==> x in b.connecting;
    if !ok {
      MarkSince(t, g, lo);
    }
  }

  lemma TimerSince(b: Book, s: Conn, g: nat, ok: bool, lo: nat)
    requires Since(b, lo) && g in b.waiting
    ensures Since(Note(b, s, Act(TimerDone(ok), g)), lo)
  {
    var t := b.(waiting := b.waiting - multiset{g});
    assert forall x :: x in t.waiting ==> x in b.waiting;
  }

  lemma HandlerSince(b: Book, s: Conn, a: Act, lo: nat)
    requires Since(b, lo) && (a.ev.HandlerStartIo? || a.ev.HandlerStopIo? || a.ev.ChainEnds?)
    ensures Since(Note(b, s, a), lo)
  {
    MarkSince(b, b.gen, lo);
    if a.ev.ChainEnds? && a.ev.h in b.chains {
      MarkSince(b.(chains := b.chains - {a.ev.h}), b.chains[a.ev.h], lo);
    }
  }

  lemma NoteSince(b: Book, s: Conn, a: Act, lo: nat)
    requires Since(b, lo) && Listed(b, a)
    ensures Since(Note(b, s, a), lo)
  {
    match a.ev {
      case Start =>
      case Stop =>
      case ResolveDone(ok, found) => ResolvedSince(b, s, a.g, ok, found, lo);
      case ConnectDone(ok) => ConnectedSince(b, s, a.g, ok, lo);
      case TimerDone(ok) => TimerSince(b, s, a.g, ok, lo);
      case Return(throws) =>
        if |s.frames| > 0 && |b.marks| > 0 {
          ReturnSince(b, s, throws, lo);
        }
      case _ => HandlerSince(b, s, a, lo);
    }
  }

  lemma {:induction false} SinceRun(t: Booked, acts: seq<Act>, lo: nat)
    requires Since(t.book, lo)
    ensures Since(BookedRun(t, acts).book, lo)
    decreases |acts|
  {
    if |acts| > 0 {
      if Listed(t.book, acts[0]) {
        NoteSince(t.book, t.conn, acts[0], lo);
      }
      SinceRun(BookedStep(t, acts[0]), acts[1..], lo);
    }
  }

  lemma StopMatches(s: Conn)
    ensures var t := StopConn(s); t.ops == s.ops && t.io.chain == s.io.chain && t.frames == s.frames
  {
  }

  lemma NotifyMatches(s: Conn, h: nat, why: Reason)
    ensures var t := NotifyBegin(s, h, why); t.ops == s.ops && t.io.chain == s.io.chain && |t.frames| == |s.frames| + 1
  {
  }

  /** What a return does to the operations and frames. */
  lemma ReturnConn(s: Conn, throws: bool)
    requires |s.frames| > 0
    ensures var t := OnReturn(s, throws);
      && t.io.chain == s.io.chain && t.ops.resolving == s.ops.resolving && t.ops.connecting == s.ops.connecting
      && (s.frames[0].NotifyClose? ==> t.ops == s.ops && |t.frames| == |s.frames|)
      && (!s.frames[0].NotifyClose? && !s.frames[0].AfterConnectError? ==> t.ops == s.ops && |t.frames| == |s.frames| - 1)
  {
    if s.frames[0].NotifyStop? {
      StopMatches(s.(frames := s.frames[1..]));
    }
  }

  lemma DecidedConn(s: Conn, throws: bool)
    requires |s.frames| > 0 && s.frames[0].AfterConnectError?
    ensures var t := OnReturn(s, throws);
      var goesOn := s.started && !s.shuttingDown;
      && t.ops.waiting == s.ops.waiting + (if goesOn && !throws then 1 else 0)
      && |t.frames| == |s.frames| - (if goesOn && throws then 0 else 1)
  {
  }

  lemma ReturnMatches(t: Booked, throws: bool)
    requires Matches(t) && |t.conn.frames| > 0
    ensures Matches(Booked(OnReturn(t.conn, throws), NoteReturn(t.book, t.conn, throws)))
  {
    ReturnConn(t.conn, throws);
    if t.conn.frames[0].AfterConnectError? {
      DecidedConn(t.conn, throws);
    }
  }

  lemma CompletionMatches(t: Booked, a: Act)
    requires Matches(t) && IsCompletion(a.ev) && Listed(t.book, a)
    ensures Matches(BookedStep(t, a))
  {
    match a.ev {
      case ResolveDone(_, _) => assert |t.book.resolving - multiset{a.g}| == |t.book.resolving| - 1;
      case ConnectDone(_) => assert |t.book.connecting - multiset{a.g}| == |t.book.connecting| - 1;
      case TimerDone(_) => assert |t.book.waiting - multiset{a.g}| == |t.book.waiting| - 1;
    }
  }

  lemma StartFailsMatches(s: Conn, h: nat)
    ensures var t := FailStart(s, h); t.ops == s.ops && t.io.chain == s.io.chain && |t.frames| == |s.frames| + 1
  {
    var calls := s.calls.(startIos := s.calls.startIos + 1, startFailures := s.calls.startFailures + 1);
    NotifyMatches(s.(io := s.io.(on := s.io.on + {h}), calls := calls), h, SystemError);
  }

  lemma StartIoMatches(t: Booked, a: Act)
    requires Matches(t) && a.ev.HandlerStartIo?
    ensures Matches(BookedStep(t, a))
  {
    var s, h := t.conn, a.ev.h;
    if h < s.io.next && h !in s.io.on {
      if a.ev.endpointError || h in s.io.shut {
        StartFailsMatches(s, h);
      } else {
        assert t.book.chains[h := t.book.gen].Keys == t.book.chains.Keys + {h};
      }
    }
  }

  lemma EndMatches(t: Booked, a: Act)
    requires Matches(t) && (a.ev.HandlerStopIo? || a.ev.ChainEnds?)
    ensures Matches(BookedStep(t, a))
  {
    var s, h := t.conn, a.ev.h;
    if a.ev.HandlerStopIo? {
      NotifyMatches(s.(calls := s.calls.(stopIos := s.calls.stopIos + 1)), h, HandlerStopped);
    } else if h in s.io.chain {
      var io, calls := s.io.(chain := s.io.chain - {h}), s.calls.(chainEnds := s.calls.chainEnds + 1);
      NotifyMatches(s.(io := io, calls := calls), h, SystemError);
      assert (t.book.chains - {h}).Keys == t.book.chains.Keys - {h};
    }
  }

  lemma StepMatches(t: Booked, a: Act)
    requires Matches(t)
    ensures Matches(BookedStep(t, a))
  {
    if !Listed(t.book, a) {
    } else if IsCompletion(a.ev) {
      CompletionMatches(t, a);
    } else if a.ev.Return? {
      if |t.conn.frames| > 0 {
        ReturnMatches(t, a.ev.timerThrows);
      }
    } else if a.ev.HandlerStartIo? {
      StartIoMatches(t, a);
    } else if a.ev.HandlerStopIo? || a.ev.ChainEnds? {
      EndMatches(t, a);
    } else if a.ev.Stop? {
      StopMatches(t.conn.(calls := t.conn.calls.(stops := t.conn.calls.stops + if t.conn.started then 1 else 0)));
    }
  }

  /** The book stays right in every run. */
  lemma {:induction false} RunMatches(t: Booked, acts: seq<Act>)
    requires Matches(t)
    ensures Matches(BookedRun(t, acts))
    decreases |acts|
  {
    if |acts| > 0 {
      StepMatches(t, acts[0]);
      RunMatches(BookedStep(t, acts[0]), acts[1..]);
    }
  }

  // ----- when a session is stopped by an earlier one -----

  predicate StopsEntity(f: Frame) {
    f.AfterResolveError? || f.AfterTimerError? || f.NotifyStop?
  }

  /** The step stops the running session on account of something that belongs to an earlier one. */
  predicate Cuts(t: Booked, a: Act) {
    && a.ev.Return? && t.conn.started
    && |t.conn.frames| > 0 && StopsEntity(t.conn.frames[0])
    && |t.book.marks| > 0 && t.book.marks[0] < t.book.gen
  }

  predicate CutShort(t: Booked, acts: seq<Act>)
    decreases |acts|
  {
    |acts| > 0 && (Cuts(t, acts[0]) || CutShort(BookedStep(t, acts[0]), acts[1..]))
  }

  /** Nothing is under way: no operation, no read chain, and no callback but an open one in progress. */
  predicate Clean(t: Booked) {
    Outstanding(t.conn.ops) == 0 && t.conn.io.chain == {} && t.conn.frames == []
  }

  lemma GenGrows(t: Booked, a: Act)
    ensures t.book.gen <= BookedStep(t, a).book.gen
    ensures BookedStep(t, a).book.gen != t.book.gen ==> a.ev.Start?
  {
  }

  lemma {:induction false} GenGrowsRun(t: Booked, acts: seq<Act>)
    ensures t.book.gen <= BookedRun(t, acts).book.gen
    decreases |acts|
  {
    if |acts| > 0 {
      GenGrows(t, acts[0]);
      GenGrowsRun(BookedStep(t, acts[0]), acts[1..]);
    }
  }

  lemma {:induction false} OwnRun(t: Booked, acts: seq<Act>)
    requires Since(t.book, t.book.gen) && BookedRun(t, acts).book.gen == t.book.gen
    ensures !CutShort(t, acts)
    decreases |acts|
  {
    if |acts| > 0 {
      var u := BookedStep(t, acts[0]);
      GenGrows(t, acts[0]);
      GenGrowsRun(u, acts[1..]);
      if Listed(t.book, acts[0]) {
        NoteSince(t.book, t.conn, acts[0], t.book.gen);
      }
      OwnRun(u, acts[1..]);
    }
  }

  /** A run that cuts the session short, with one more step before it. */
  lemma CutLater(t: Booked, a: Act, rest: seq<Act>) returns (acts: seq<Act>)
    requires !a.ev.Start? && CutShort(BookedStep(t, a), rest)
    requires BookedRun(BookedStep(t, a), rest).book.gen == BookedStep(t, a).book.gen
    ensures BookedRun(t, acts).book.gen == t.book.gen && CutShort(t, acts)
  {
    acts := [a] + rest;
    assert acts[1..] == rest;
    GenGrows(t, a);
  }

  lemma CutNow(t: Booked) returns (acts: seq<Act>)
    requires Cuts(t, Act(Return(true), 0))
    ensures BookedRun(t, acts).book.gen == t.book.gen && CutShort(t, acts)
  {
    var a := Act(Return(true), 0);
    acts := [a];
    assert BookedRun(t, acts) == BookedRun(BookedStep(t, a), []) by {
      assert acts[1..] == [];
    }
    GenGrows(t, a);
  }

  /** A callback of an earlier session in progress can end with the running session stopped. */
  lemma FrameCuts(t: Booked) returns (acts: seq<Act>)
    requires t.conn.started && !t.conn.shuttingDown && |t.conn.frames| > 0
    requires |t.book.marks| > 0 && t.book.marks[0] < t.book.gen
    ensures BookedRun(t, acts).book.gen == t.book.gen && CutShort(t, acts)
  {
    if StopsEntity(t.conn.frames[0]) {
      acts := CutNow(t);
    } else {
      var a := Act(Return(true), 0);
      var rest := CutNow(BookedStep(t, a));
      acts := CutLater(t, a, rest);
    }
  }

  /** So can an outstanding connect, and hence a resolve or a wait. */
  lemma ConnectCuts(t: Booked, g: nat) returns (acts: seq<Act>)
    requires t.conn.started && !t.conn.shuttingDown && t.conn.ops.connecting > 0
    requires g in t.book.connecting && g < t.book.gen
    ensures BookedRun(t, acts).book.gen == t.book.gen && CutShort(t, acts)
  {
    var a := Act(ConnectDone(false), g);
    var rest := FrameCuts(BookedStep(t, a));
    acts := CutLater(t, a, rest);
  }

  lemma ResolveCuts(t: Booked, g: nat) returns (acts: seq<Act>)
    requires t.conn.started && !t.conn.shuttingDown && t.conn.ops.resolving > 0
    requires g in t.book.resolving && g < t.book.gen
    ensures BookedRun(t, acts).book.gen == t.book.gen && CutShort(t, acts)
  {
    var a := Act(ResolveDone(false, false), g);
    var rest := FrameCuts(BookedStep(t, a));
    acts := CutLater(t, a, rest);
  }

  lemma TimerCuts(t: Booked, g: nat) returns (acts: seq<Act>)
    requires t.conn.started && !t.conn.shuttingDown && t.conn.ops.waiting > 0
    requires g in t.book.waiting && g < t.book.gen
    ensures BookedRun(t, acts).book.gen == t.book.gen && CutShort(t, acts)
  {
    var a := Act(TimerDone(true), g);
    var rest := ConnectCuts(BookedStep(t, a), g);
    acts := CutLater(t, a, rest);
  }

  lemma ChainCuts(t: Booked, h: nat) returns (acts: seq<Act>)
    requires t.conn.started && !t.conn.shuttingDown && h in t.conn.io.chain
    requires h in t.book.chains && t.book.chains[h] < t.book.gen
    ensures BookedRun(t, acts).book.gen == t.book.gen && CutShort(t, acts)
  {
    var a := Act(ChainEnds(h), 0);
    var rest := FrameCuts(BookedStep(t, a));
    acts := CutLater(t, a, rest);
  }

  /** A start adds to what is under way and takes nothing away. */
  ghost predicate StartedFrom(t: Booked, u: Booked) {
    && u.conn.started && !u.conn.shuttingDown && u.book.gen == t.book.gen + 1
    && u.conn.frames == t.conn.frames && u.book.marks == t.book.marks
    && u.conn.io.chain == t.conn.io.chain && u.book.chains == t.book.chains
    && t.conn.ops.resolving <= u.conn.ops.resolving && t.book.resolving <= u.book.resolving
    && t.conn.ops.connecting <= u.conn.ops.connecting && t.book.connecting <= u.book.connecting
    && t.conn.ops.waiting == u.conn.ops.waiting && t.book.waiting == u.book.waiting
  }

  lemma StartsFrom(t: Booked)
    requires !t.conn.started
    ensures StartedFrom(t, BookedStep(t, Act(Start, 0)))
  {
  }

  lemma OperationCuts(t: Booked, u: Booked) returns (acts: seq<Act>)
    requires Matches(t) && Since(t.book, 0) && Outstanding(t.conn.ops) > 0 && StartedFrom(t, u)
    ensures BookedRun(u, acts).book.gen == u.book.gen && CutShort(u, acts)
  {
    if t.conn.ops.resolving > 0 {
      var g :| g in t.book.resolving;
      acts := ResolveCuts(u, g);
    } else if t.conn.ops.connecting > 0 {
      var g :| g in t.book.connecting;
      acts := ConnectCuts(u, g);
    } else {
      var g :| g in t.book.waiting;
      acts := TimerCuts(u, g);
    }
  }

  lemma CallbackCuts(t: Booked, u: Booked) returns (acts: seq<Act>)
    requires |t.book.marks| == |t.conn.frames| > 0 && Since(t.book, 0) && StartedFrom(t, u)
    ensures BookedRun(u, acts).book.gen == u.book.gen && CutShort(u, acts)
  {
    assert t.book.marks[0] <= t.book.gen;
    acts := FrameCuts(u);
  }

  lemma ReadingCuts(t: Booked, u: Booked) returns (acts: seq<Act>)
    requires t.book.chains.Keys == t.conn.io.chain != {} && Since(t.book, 0) && StartedFrom(t, u)
    ensures BookedRun(u, acts).book.gen == u.book.gen && CutShort(u, acts)
  {
    var h :| h in t.conn.io.chain;
    assert h in t.book.chains.Keys;
    acts := ChainCuts(u, h);
  }

  /** What was under way before a start can end the session so begun. */
  lemma LeftoverCuts(t: Booked, u: Booked) returns (acts: seq<Act>)
    requires Matches(t) && Since(t.book, 0) && !Clean(t) && StartedFrom(t, u)
    ensures BookedRun(u, acts).book.gen == u.book.gen && CutShort(u, acts)
  {
    if Outstanding(t.conn.ops) > 0 {
      acts := OperationCuts(t, u);
    } else if t.conn.frames != [] {
      acts := CallbackCuts(t, u);
    } else {
      acts := ReadingCuts(t, u);
    }
  }

  /** A book of present-session operations alone. */
  lemma OwnBook(b: Book)
    requires forall g :: g in b.resolving || g in b.connecting ==> g == b.gen
    requires |b.waiting| == 0 && |b.marks| == 0 && forall h :: h !in b.chains
    ensures Since(b, b.gen)
  {
  }

  lemma NoKeys(m: map<nat, nat>)
    requires m.Keys == {}
    ensures forall h :: h !in m
  {
  }

  lemma OnlyNew(m: multiset<nat>, g: nat)
    requires |m| == 0
    ensures m == multiset{} && forall x :: x in m + multiset{g} ==> x == g
  {
  }

  lemma CleanIsOwn(t: Booked)
    requires |t.book.resolving| == 0 && |t.book.connecting| == 0 && |t.book.waiting| == 0
    requires t.book.chains.Keys == {} && |t.book.marks| == 0 && !t.conn.started
    ensures var b := BookedStep(t, Act(Start, 0)).book; Since(b, b.gen)
  {
    NoKeys(t.book.chains);
    OnlyNew(t.book.resolving, t.book.gen + 1);
    OnlyNew(t.book.connecting, t.book.gen + 1);
    OwnBook(Note(t.book, t.conn, Act(Start, 0)));
  }

  /** The exact condition for a session of the connector to be safe from its predecessors, which the caller of start()
      can check: in whatever run follows, until the next start, nothing that belongs to an earlier session ever stops
      it, exactly if nothing was under way when it was started. */
  lemma {:induction false} SafeFromEarlierIff(resolved: bool, before: seq<Act>)
    requires !BookedRun(FreshBooked(resolved), before).conn.started
    ensures var t := BookedRun(FreshBooked(resolved), before);
      var u := BookedStep(t, Act(Start, 0));
      (forall acts :: BookedRun(u, acts).book.gen == u.book.gen ==> !CutShort(u, acts)) <==> Clean(t)
  {
    var t := BookedRun(FreshBooked(resolved), before);
    var u := BookedStep(t, Act(Start, 0));
    SinceRun(FreshBooked(resolved), before, 0);
    RunMatches(FreshBooked(resolved), before);
    StartsFrom(t);
    if Clean(t) {
      CleanIsOwn(t);
      forall acts | BookedRun(u, acts).book.gen == u.book.gen
        ensures !CutShort(u, acts)
      {
        OwnRun(u, acts);
      }
    } else {
      var acts := LeftoverCuts(t, u);
    }
  }

  /** It happens: the aborted resolve of one session stops the next, whose own resolve goes on and then opens a
      connection on the stopped connector. */
  lemma StaleResolveStopsNewSession()
    ensures var again := ConnStep(ConnStep(ConnStep(FreshConn(false), Start), Stop), Start);
      var cut := ConnStep(ConnStep(again, ResolveDone(false, false)), Return(false));
      var t := ConnStep(ConnStep(cut, ResolveDone(true, true)), ConnectDone(true));
      && again.started && !cut.started && cut.ops.resolving == 1
      && !t.started && t.trace == [Failed(None, EntityStopped), Failed(None, SystemError), Opened(0, 1)]
  {
    var again := ConnStep(ConnStep(ConnStep(FreshConn(false), Start), Stop), Start);
    assert again.started && again.ops == Ops(2, 0, 0) && again.frames == [] && again.trace == [Failed(None, EntityStopped)];
    var failed := ConnStep(again, ResolveDone(false, false));
    assert failed.frames == [AfterResolveError] && failed.ops == Ops(1, 0, 0);
    var cut := ConnStep(failed, Return(false));
    assert cut.frames == [] && cut.io.next == 0;
  }
}
