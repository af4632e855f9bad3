/** The TCP acceptor (include/net_ip/detail/tcp_acceptor.hpp) and the notifications of its handlers.

    A callback hands control to the application, which may call back into the acceptor or a handler before it
    returns. So a step runs the code up to the next callback, and `frames` is the stack of what remains to be done
    when callbacks return; the event `Return` does the top of it. Handlers are numbered in the order accepted. */
module Acceptor {
  import opened Bytes
  import opened NetEntity

  datatype Frame =
    | StartAccept            // start_accept() after the open callback
    | EraseThenClose(h: nat) // the second half of notify_me, after the error callback
    | StopLoop(rest: seq<nat>)
    | CloseAcceptor
    | StopAfterError

  datatype Acc = Acc(
    started: bool,
    listening: bool,
    accepting: nat,     // outstanding async_accept operations
    live: seq<nat>,     // m_io_handlers
    next: nat,          // number of handlers accepted so far
    on: set<nat>,       // handlers whose is_io_started is true
    chain: set<nat>,    // handlers whose read chain is running
    frames: seq<Frame>, // top first
    // history
    ever: set<nat>,     // handlers on which start_io got past set_io_started
    begun: set<nat>,    // handlers notified
    gone: set<nat>,     // handlers whose notification has erased them
    trace: seq<Callback>
  )

  datatype AccEvent =
    | Start(bindOk: bool)
    | Stop
    | Accepted(ok: bool)                         // completion of async_accept
    | HandlerStartIo(h: nat, endpointError: bool)
    | HandlerStopIo(h: nat)
    | ChainEnds(h: nat)                          // read error or message handler false
    | Return                                     // the callback in progress returns

  function FreshAcc(): Acc {
    Acc(false, false, 0, [], 0, {}, {}, [], {}, {}, {}, [])
  }

  /** erase_where for every element of `hs`, order kept. */
  function Minus(live: seq<nat>, hs: set<nat>): seq<nat> {
    if |live| == 0 then []
    else (if live[0] in hs then [] else [live[0]]) + Minus(live[1..], hs)
  }

  function NotifyMe(s: Acc, h: nat, why: Reason): Acc {
    s.(on := s.on - {h}, begun := s.begun + {h}, trace := s.trace + [Failed(Some(h), why)],
       frames := [EraseThenClose(h)] + s.frames)
  }

  function EraseAndClose(s: Acc, h: nat): Acc {
    var live := Minus(s.live, {h});
    s.(live := live, gone := s.gone + {h}, trace := s.trace + [Closed(h, |live|)])
  }

  /** The loop of stop() over the copied list, up to the next callback. */
  function LoopOn(s: Acc, rest: seq<nat>): Acc
    decreases |rest|
  {
    if |rest| == 0 then s.(trace := s.trace + [Failed(None, EntityStopped)], frames := [CloseAcceptor] + s.frames)
    else if rest[0] in s.on then NotifyMe(s.(frames := [StopLoop(rest[1..])] + s.frames), rest[0], HandlerStopped)
    else LoopOn(s, rest[1..])
  }

  function StopAcc(s: Acc): Acc {
    if s.started then LoopOn(s.(started := false), s.live) else s
  }

  function ReturnFrom(s: Acc): Acc {
    if |s.frames| == 0 then s
    else
      var t := s.(frames := s.frames[1..]);
      match s.frames[0]
      case StartAccept => t.(accepting := t.accepting + 1)
      case EraseThenClose(h) => EraseAndClose(t, h)
      case StopLoop(rest) => LoopOn(t, rest)
      case CloseAcceptor => t.(listening := false)
      case StopAfterError => StopAcc(t)
  }

  function FailThenStop(s: Acc): Acc {
    s.(trace := s.trace + [Failed(None, SystemError)], frames := [StopAfterError] + s.frames)
  }

  function AcceptedOk(s: Acc): Acc
    requires s.accepting > 0
  {
    s.(accepting := s.accepting - 1, live := s.live + [s.next], next := s.next + 1,
       trace := s.trace + [Opened(s.next, |s.live| + 1)], frames := [StartAccept] + s.frames)
  }

  function AccStep(s: Acc, ev: AccEvent): Acc {
    match ev
    case Start(bindOk) =>
      if s.started then s
      else if bindOk then s.(started := true, listening := true, accepting := s.accepting + 1)
      else FailThenStop(s.(started := true))
    case Stop => StopAcc(s)
    case Accepted(ok) =>
      if s.accepting == 0 then s
      else if ok then AcceptedOk(s)
      else FailThenStop(s.(accepting := s.accepting - 1))
    case HandlerStartIo(h, err) =>
      if h >= s.next || h in s.on then s
      else
        var t := s.(on := s.on + {h}, ever := s.ever + {h});
        if err || h in s.begun then NotifyMe(t, h, SystemError) // a closed socket has no remote endpoint
        else t.(chain := t.chain + {h})
    case HandlerStopIo(h) => if h in s.on then NotifyMe(s, h, HandlerStopped) else s
    case ChainEnds(h) => if h in s.chain then NotifyMe(s.(chain := s.chain - {h}), h, SystemError) else s
    case Return => ReturnFrom(s)
  }

  function AccRun(s: Acc, evs: seq<AccEvent>): Acc
    decreases |evs|
  {
    if |evs| == 0 then s else AccRun(AccStep(s, evs[0]), evs[1..])
  }

  function Tell(before: seq<nat>, c: Callback): seq<nat> {
    match c
    case Opened(h, _) => before + [h]
    case Closed(h, _) => Minus(before, {h})
    case Failed(_, _) => before
  }

  /** The container an application keeps from the state change callbacks alone. */
  function Replay(tr: seq<Callback>): seq<nat> {
    if |tr| == 0 then [] else Tell(Replay(tr[..|tr| - 1]), tr[|tr| - 1])
  }

  /** Every count passed to a state change callback is the size of that container. */
  ghost predicate CountsRight(tr: seq<Callback>) {
    forall i :: 0 <= i < |tr| && !tr[i].Failed? ==> tr[i].count == |Replay(tr[..i + 1])|
  }

  ghost predicate Pending(s: Acc, h: nat) {
    EraseThenClose(h) in s.frames
  }

  ghost predicate Ascending(live: seq<nat>) {
    forall i, j :: 0 <= i < j < |live| ==> live[i] < live[j]
  }

  ghost predicate LiveInv(s: Acc) {
    // the list is in accept order, without duplicates, and holds what was opened and not erased
    && Ascending(s.live)
    && (forall h: nat :: h in s.live <==> h < s.next && h !in s.gone)
    // callbacks
    && s.live == Replay(s.trace) && CountsRight(s.trace)
  }

  ghost predicate FlagInv(s: Acc) {
    && s.on <= s.ever && s.chain <= s.ever && s.gone <= s.begun <= s.ever
    && (forall h :: h in s.ever ==> h < s.next)
    // a notified handler is erased, or will be when the error callback returns
    && (forall h :: h in s.begun ==> h in s.gone || Pending(s, h))
    // a listed handler that was started is still on, or being notified
    && (forall h: nat :: h in s.live && h in s.ever ==> h in s.on || Pending(s, h))
    && (forall h :: Pending(s, h) ==> h in s.begun)
    && (forall f, h :: f in s.frames && f.StopLoop? && h in f.rest ==> h < s.next)
  }

  lemma {:induction false} MinusIs(live: seq<nat>, hs: set<nat>)
    ensures forall h :: h in Minus(live, hs) <==> h in live && h !in hs
    ensures Ascending(live) ==> Ascending(Minus(live, hs))
    ensures |Minus(live, hs)| <= |live|
  {
    if |live| > 0 {
      MinusIs(live[1..], hs);
      var m := Minus(live[1..], hs);
      assert Minus(live, hs) == (if live[0] in hs then [] else [live[0]]) + m;
      assert forall h :: h in live <==> h == live[0] || h in live[1..];
      if Ascending(live) {
        assert forall h :: h in m ==> h in live[1..];
        forall i | 0 <= i < |m|
          ensures live[0] < m[i]
        {
          assert m[i] in live[1..];
        }
      }
    }
  }

  lemma ReplayLast(tr: seq<Callback>, c: Callback)
    requires CountsRight(tr)
    requires !c.Failed? ==> c.count == |Tell(Replay(tr), c)|
    ensures CountsRight(tr + [c])
    ensures Replay(tr + [c]) == Tell(Replay(tr), c)
  {
    var all := tr + [c];
    assert all[..|all| - 1] == tr;
    forall i | 0 <= i < |all| && !all[i].Failed?
      ensures all[i].count == |Replay(all[..i + 1])|
    {
      if i < |tr| {
        assert all[..i + 1] == tr[..i + 1];
      } else {
        assert all[..i + 1] == all;
      }
    }
  }

  // ----- the invariants hold in every run -----

  lemma EraseInv(s: Acc, h: nat)
    requires LiveInv(s)
    ensures LiveInv(EraseAndClose(s, h))
  {
    MinusIs(s.live, {h});
    ReplayLast(s.trace, Closed(h, |Minus(s.live, {h})|));
  }

  lemma AppendAscending(live: seq<nat>, next: nat)
    requires Ascending(live) && forall h :: h in live ==> h < next
    ensures Ascending(live + [next]) && forall h :: h in live + [next] ==> h < next + 1
  {
    var t := live + [next];
    forall i, j | 0 <= i < j < |t|
      ensures t[i] < t[j]
    {
      assert t[i] in live;
    }
  }

  lemma AcceptedInv(s: Acc)
    requires LiveInv(s) && s.accepting > 0 && forall g :: g in s.gone ==> g < s.next
    ensures LiveInv(AcceptedOk(s))
  {
    ReplayLast(s.trace, Opened(s.next, |s.live| + 1));
    AppendAscending(s.live, s.next);
  }

  lemma FailedInv(s: Acc, c: Callback)
    requires LiveInv(s) && c.Failed?
    ensures LiveInv(s.(trace := s.trace + [c]))
  {
    ReplayLast(s.trace, c);
  }

  lemma {:induction false} LoopLive(s: Acc, rest: seq<nat>)
    requires LiveInv(s)
    ensures LiveInv(LoopOn(s, rest))
    decreases |rest|
  {
    if |rest| == 0 {
      FailedInv(s, Failed(None, EntityStopped));
    } else if rest[0] in s.on {
      FailedInv(s, Failed(Some(rest[0]), HandlerStopped));
    } else {
      LoopLive(s, rest[1..]);
    }
  }

  lemma ReturnLive(s: Acc)
    requires LiveInv(s)
    ensures LiveInv(ReturnFrom(s))
  {
    if |s.frames| > 0 {
      var t := s.(frames := s.frames[1..]);
      match s.frames[0] {
        case EraseThenClose(h) => EraseInv(t, h);
        case StopLoop(rest) => LoopLive(t, rest);
        case StopAfterError => LoopLive(t.(started := false), t.live);
        case _ =>
      }
    }
  }

  lemma LiveStep(s: Acc, ev: AccEvent)
    requires LiveInv(s) && FlagInv(s)
    ensures LiveInv(AccStep(s, ev))
  {
    match ev {
      case Start(_) => FailedInv(s, Failed(None, SystemError));
      case Stop => LoopLive(s.(started := false), s.live);
      case Accepted(ok) =>
        if s.accepting > 0 && ok {
          AcceptedInv(s);
        }
        FailedInv(s, Failed(None, SystemError));
      case HandlerStartIo(h, _) => FailedInv(s, Failed(Some(h), SystemError));
      case HandlerStopIo(h) => FailedInv(s, Failed(Some(h), HandlerStopped));
      case ChainEnds(h) => FailedInv(s, Failed(Some(h), SystemError));
      case Return => ReturnLive(s);
    }
  }

  /** A notification keeps the flags: `h` is no longer on, and its erasing is pending. */
  lemma NotifyFlags(s: Acc, h: nat, why: Reason)
    requires FlagInv(s) && h in s.ever
    ensures FlagInv(NotifyMe(s, h, why))
  {
    var t := NotifyMe(s, h, why);
    assert forall g :: Pending(t, g) <==> g == h || Pending(s, g);
    assert forall f :: f in t.frames && f.StopLoop? ==> f in s.frames;
  }

  lemma PushFlags(s: Acc, f: Frame)
    requires FlagInv(s) && !f.EraseThenClose?
    requires f.StopLoop? ==> forall h :: h in f.rest ==> h < s.next
    ensures FlagInv(s.(frames := [f] + s.frames))
  {
    var t := s.(frames := [f] + s.frames);
    assert forall g :: Pending(t, g) <==> Pending(s, g);
  }

  lemma {:induction false} LoopFlags(s: Acc, rest: seq<nat>)
    requires FlagInv(s)
    requires forall h :: h in rest ==> h < s.next
    ensures FlagInv(LoopOn(s, rest))
    decreases |rest|
  {
    if |rest| == 0 {
      PushFlags(s, CloseAcceptor);
    } else if rest[0] in s.on {
      assert forall h :: h in rest[1..] ==> h in rest;
      PushFlags(s, StopLoop(rest[1..]));
      NotifyFlags(s.(frames := [StopLoop(rest[1..])] + s.frames), rest[0], HandlerStopped);
    } else {
      assert forall h :: h in rest[1..] ==> h in rest;
      LoopFlags(s, rest[1..]);
    }
  }

  lemma PopFlags(s: Acc)
    requires FlagInv(s) && |s.frames| > 0 && !s.frames[0].EraseThenClose?
    ensures FlagInv(s.(frames := s.frames[1..]))
  {
    var t := s.(frames := s.frames[1..]);
    assert s.frames == [s.frames[0]] + t.frames;
    assert forall g :: Pending(t, g) <==> Pending(s, g);
  }

  lemma PopErase(s: Acc, h: nat)
    requires FlagInv(s) && |s.frames| > 0 && s.frames[0] == EraseThenClose(h)
    ensures FlagInv(EraseAndClose(s.(frames := s.frames[1..]), h))
  {
    var t := EraseAndClose(s.(frames := s.frames[1..]), h);
    assert s.frames == [s.frames[0]] + t.frames;
    MinusIs(s.live, {h});
    assert Pending(s, h);
    assert forall g :: Pending(s, g) ==> g == h || Pending(t, g);
    assert forall g :: Pending(t, g) ==> Pending(s, g);
  }

  lemma ReturnFlags(s: Acc)
    requires LiveInv(s) && FlagInv(s)
    ensures FlagInv(ReturnFrom(s))
  {
    if |s.frames| > 0 {
      var t := s.(frames := s.frames[1..]);
      match s.frames[0] {
        case EraseThenClose(h) => PopErase(s, h);
        case StopLoop(rest) =>
          PopFlags(s);
          LoopFlags(t, rest);
        case StopAfterError =>
          PopFlags(s);
          LoopFlags(t.(started := false), t.live);
        case _ => PopFlags(s);
      }
    }
  }

  lemma StartIoFlags(s: Acc, h: nat, err: bool)
    requires FlagInv(s) && h < s.next && h !in s.on
    ensures FlagInv(AccStep(s, HandlerStartIo(h, err)))
  {
    if err || h in s.begun {
      NotifyFlags(s.(on := s.on + {h}, ever := s.ever + {h}), h, SystemError);
    } else {
      var t := AccStep(s, HandlerStartIo(h, err));
      assert forall g :: Pending(t, g) <==> Pending(s, g);
    }
  }

  lemma EndFlags(s: Acc, ev: AccEvent)
    requires FlagInv(s) && (ev.HandlerStopIo? || ev.ChainEnds?)
    ensures FlagInv(AccStep(s, ev))
  {
    if ev.HandlerStopIo? {
      if ev.h in s.on {
        NotifyFlags(s, ev.h, HandlerStopped);
      }
    } else if ev.h in s.chain {
      var t := s.(chain := s.chain - {ev.h});
      assert forall g :: Pending(t, g) <==> Pending(s, g);
      NotifyFlags(t, ev.h, SystemError);
    }
  }

  lemma FlagStep(s: Acc, ev: AccEvent)
    requires LiveInv(s) && FlagInv(s)
    ensures FlagInv(AccStep(s, ev))
  {
    match ev {
      case Start(_) => PushFlags(s.(started := true), StopAfterError);
      case Stop => LoopFlags(s.(started := false), s.live);
      case Accepted(ok) =>
        if s.accepting > 0 {
          PushFlags(s, if ok then StartAccept else StopAfterError);
        }
      case HandlerStartIo(h, err) =>
        if h < s.next && h !in s.on {
          StartIoFlags(s, h, err);
        }
      case HandlerStopIo(_) => EndFlags(s, ev);
      case ChainEnds(_) => EndFlags(s, ev);
      case Return => ReturnFlags(s);
    }
  }

  lemma {:induction false} AccRunInv(s: Acc, evs: seq<AccEvent>)
    requires LiveInv(s) && FlagInv(s)
    ensures LiveInv(AccRun(s, evs)) && FlagInv(AccRun(s, evs))
    decreases |evs|
  {
    if |evs| > 0 {
      LiveStep(s, evs[0]);
      FlagStep(s, evs[0]);
      AccRunInv(AccStep(s, evs[0]), evs[1..]);
    }
  }

  /** In every reachable state, whatever the callbacks call back into and however often a handler is notified: the
      list is in accept order without duplicates, it is what the application would collect from the callbacks, every
      count is the size of that collection; and when no callback is in progress it holds exactly the handlers opened
      and never notified. */
  lemma {:induction false} AcceptorLiveSet(evs: seq<AccEvent>)
    ensures var s := AccRun(FreshAcc(), evs);
      && Ascending(s.live)
      && s.live == Replay(s.trace) && CountsRight(s.trace)
      && (forall h: nat :: h in s.live <==> h < s.next && h !in s.gone)
      && (s.frames == [] ==> forall h: nat :: h in s.live <==> h < s.next && h !in s.begun)
      && (s.frames == [] ==> forall h: nat :: h in s.live ==> (h in s.on <==> h in s.ever))
  {
    AccRunInv(FreshAcc(), evs);
    var s := AccRun(FreshAcc(), evs);
    if s.frames == [] {
      assert forall h :: !Pending(s, h);
    }
  }

  // ----- one close callback per connection -----

  /** Close callbacks made for handler `h`. */
  function ClosesOf(tr: seq<Callback>, h: nat): nat {
    if |tr| == 0 then 0
    else ClosesOf(tr[..|tr| - 1], h) + (if tr[|tr| - 1].Closed? && tr[|tr| - 1].h == h then 1 else 0)
  }

  /** Notifications of `h` for the given reason. */
  function NotesOf(tr: seq<Callback>, h: nat, why: Reason): nat {
    multiset(tr)[Failed(Some(h), why)]
  }

  predicate PassesFlag(s: Acc, ev: AccEvent, h: nat) {
    ev.HandlerStartIo? && ev.h == h < s.next && h !in s.on
  }

  /** start_io calls that get past the flag of handler `h`. */
  function StartsOf(s: Acc, evs: seq<AccEvent>, h: nat): nat
    decreases |evs|
  {
    if |evs| == 0 then 0
    else (if PassesFlag(s, evs[0], h) then 1 else 0) + StartsOf(AccStep(s, evs[0]), evs[1..], h)
  }

  /** A started handler reads and was not notified; one that reads and is not started was stopped by stop_io, which
      happens at most once; and all notifications but the pending ones have led to a close callback. */
  ghost predicate EndInv(s: Acc, h: nat) {
    && (h in s.on ==> h in s.chain && h !in s.begun)
    && (h in s.chain && h !in s.on ==> NotesOf(s.trace, h, HandlerStopped) == 1)
    && NotesOf(s.trace, h, HandlerStopped) <= (if h in s.begun then 1 else 0)
    && ClosesOf(s.trace, h) + multiset(s.frames)[EraseThenClose(h)]
       == NotesOf(s.trace, h, SystemError) + NotesOf(s.trace, h, HandlerStopped)
  }

  /** Read chains of `h` begun and ended, by its system error notifications. */
  function Ended(s: Acc, h: nat): nat {
    NotesOf(s.trace, h, SystemError) + if h in s.chain then 1 else 0
  }

  lemma ClosesEmit(tr: seq<Callback>, c: Callback, h: nat)
    ensures ClosesOf(tr + [c], h) == ClosesOf(tr, h) + (if c.Closed? && c.h == h then 1 else 0)
  {
    assert (tr + [c])[..|tr|] == tr;
  }

  lemma NotifyEnd(s: Acc, g: nat, why: Reason, h: nat)
    requires why == SystemError || why == HandlerStopped
    requires EndInv(s, h) && (why == HandlerStopped <==> g in s.on)
    ensures EndInv(NotifyMe(s, g, why), h)
    ensures Ended(NotifyMe(s, g, why), h) == Ended(s, h) + (if g == h && why == SystemError then 1 else 0)
  {
    ClosesEmit(s.trace, Failed(Some(g), why), h);
  }

  /** Nothing that concerns `h` changes. */
  lemma SameEnd(s: Acc, t: Acc, h: nat)
    requires EndInv(s, h)
    requires t.on == s.on && t.chain == s.chain && t.begun == s.begun && t.trace == s.trace
    requires multiset(t.frames)[EraseThenClose(h)] == multiset(s.frames)[EraseThenClose(h)]
    ensures EndInv(t, h) && Ended(t, h) == Ended(s, h)
  {
  }

  /** A callback that is not about `h`. */
  lemma EmitEnd(s: Acc, c: Callback, h: nat)
    requires EndInv(s, h) && !c.Closed? && (c.Failed? ==> c.who == None)
    ensures var t := s.(trace := s.trace + [c]); EndInv(t, h) && Ended(t, h) == Ended(s, h)
  {
    ClosesEmit(s.trace, c, h);
  }

  lemma {:induction false} LoopEnd(s: Acc, rest: seq<nat>, h: nat)
    requires EndInv(s, h)
    ensures EndInv(LoopOn(s, rest), h) && Ended(LoopOn(s, rest), h) == Ended(s, h)
    decreases |rest|
  {
    if |rest| == 0 {
      var t := s.(frames := [CloseAcceptor] + s.frames);
      SameEnd(s, t, h);
      EmitEnd(t, Failed(None, EntityStopped), h);
    } else if rest[0] in s.on {
      var t := s.(frames := [StopLoop(rest[1..])] + s.frames);
      SameEnd(s, t, h);
      NotifyEnd(t, rest[0], HandlerStopped, h);
    } else {
      LoopEnd(s, rest[1..], h);
    }
  }

  lemma StopEnd(s: Acc, h: nat)
    requires EndInv(s, h)
    ensures EndInv(StopAcc(s), h) && Ended(StopAcc(s), h) == Ended(s, h)
  {
    if s.started {
      LoopEnd(s.(started := false), s.live, h);
    }
  }

  lemma EraseEnd(s: Acc, g: nat, h: nat)
    requires EndInv(s, h) && |s.frames| > 0 && s.frames[0] == EraseThenClose(g)
    ensures var t := EraseAndClose(s.(frames := s.frames[1..]), g); EndInv(t, h) && Ended(t, h) == Ended(s, h)
  {
    assert s.frames == [s.frames[0]] + s.frames[1..];
    ClosesEmit(s.trace, Closed(g, |Minus(s.live, {g})|), h);
  }

  lemma ReturnEnd(s: Acc, h: nat)
    requires EndInv(s, h)
    ensures EndInv(ReturnFrom(s), h) && Ended(ReturnFrom(s), h) == Ended(s, h)
  {
    if |s.frames| > 0 {
      var t := s.(frames := s.frames[1..]);
      assert s.frames == [s.frames[0]] + t.frames;
      match s.frames[0] {
        case EraseThenClose(g) => EraseEnd(s, g, h);
        case StopLoop(rest) =>
          SameEnd(s, t, h);
          LoopEnd(t, rest, h);
        case StopAfterError =>
          SameEnd(s, t, h);
          StopEnd(t, h);
        case _ => SameEnd(s, ReturnFrom(s), h);
      }
    }
  }

  lemma FailEnd(s: Acc, h: nat)
    requires EndInv(s, h)
    ensures EndInv(FailThenStop(s), h) && Ended(FailThenStop(s), h) == Ended(s, h)
  {
    var t := s.(frames := [StopAfterError] + s.frames);
    SameEnd(s, t, h);
    EmitEnd(t, Failed(None, SystemError), h);
  }

  lemma AcceptedEnd(s: Acc, h: nat)
    requires EndInv(s, h) && s.accepting > 0
    ensures EndInv(AcceptedOk(s), h) && Ended(AcceptedOk(s), h) == Ended(s, h)
  {
    var c := Opened(s.next, |s.live| + 1);
    EmitEnd(s, c, h);
    SameEnd(s.(trace := s.trace + [c]), AcceptedOk(s), h);
  }

  lemma StartIoReads(s: Acc, g: nat, h: nat)
    requires EndInv(s, g) && EndInv(s, h) && g !in s.on && g !in s.begun
    ensures var t := s.(on := s.on + {g}, ever := s.ever + {g}, chain := s.chain + {g});
      EndInv(t, h) && Ended(t, h) == Ended(s, h) + if g == h then 1 else 0
  {
  }

  lemma StartIoFails(s: Acc, g: nat, h: nat)
    requires EndInv(s, h) && g !in s.on
    ensures var t := NotifyMe(s.(on := s.on + {g}, ever := s.ever + {g}), g, SystemError);
      EndInv(t, h) && Ended(t, h) == Ended(s, h) + if g == h then 1 else 0
  {
    var t := s.(ever := s.ever + {g});
    assert s.on + {g} - {g} == s.on == s.on - {g};
    NotifyEnd(t, g, SystemError, h);
    assert NotifyMe(s.(on := s.on + {g}, ever := s.ever + {g}), g, SystemError) == NotifyMe(t, g, SystemError);
  }

  lemma ChainEndEnd(s: Acc, g: nat, h: nat)
    requires EndInv(s, g) && EndInv(s, h) && g in s.chain
    ensures var t := NotifyMe(s.(chain := s.chain - {g}), g, SystemError); EndInv(t, h) && Ended(t, h) == Ended(s, h)
  {
    ClosesEmit(s.trace, Failed(Some(g), SystemError), h);
    var t := NotifyMe(s.(chain := s.chain - {g}), g, SystemError);
    assert t.trace == s.trace + [Failed(Some(g), SystemError)] && t.frames == [EraseThenClose(g)] + s.frames;
    if h != g {
      assert NotesOf(t.trace, h, SystemError) == NotesOf(s.trace, h, SystemError);
    } else {
      assert NotesOf(t.trace, h, SystemError) == NotesOf(s.trace, h, SystemError) + 1;
    }
  }

  lemma AcceptorEnd(s: Acc, ev: AccEvent, h: nat)
    requires EndInv(s, h) && (ev.Start? || ev.Accepted?)
    ensures EndInv(AccStep(s, ev), h) && Ended(AccStep(s, ev), h) == Ended(s, h)
  {
    if ev.Start? {
      if !s.started {
        SameEnd(s, s.(started := true), h);
        FailEnd(s.(started := true), h);
      }
    } else if s.accepting > 0 {
      if ev.ok {
        AcceptedEnd(s, h);
      } else {
        SameEnd(s, s.(accepting := s.accepting - 1), h);
        FailEnd(s.(accepting := s.accepting - 1), h);
      }
    }
  }

  lemma StartIoEnd(s: Acc, g: nat, err: bool, h: nat)
    requires EndInv(s, g) && EndInv(s, h)
    ensures var t := AccStep(s, HandlerStartIo(g, err));
      EndInv(t, h) && Ended(t, h) == Ended(s, h) + if PassesFlag(s, HandlerStartIo(g, err), h) then 1 else 0
  {
    if g < s.next && g !in s.on {
      if err || g in s.begun {
        StartIoFails(s, g, h);
      } else {
        StartIoReads(s, g, h);
      }
    }
  }

  lemma StopIoEnd(s: Acc, g: nat, h: nat)
    requires EndInv(s, h)
    ensures var t := AccStep(s, HandlerStopIo(g)); EndInv(t, h) && Ended(t, h) == Ended(s, h)
  {
    if g in s.on {
      NotifyEnd(s, g, HandlerStopped, h);
    }
  }

  /** `EndInv` of the event's own handler, if it has one, and of `h` is all that a step needs. */
  lemma EndStep(s: Acc, ev: AccEvent, h: nat)
    requires EndInv(s, h) && (ev.HandlerStartIo? || ev.ChainEnds? ==> EndInv(s, ev.h))
    ensures EndInv(AccStep(s, ev), h)
    ensures Ended(AccStep(s, ev), h) == Ended(s, h) + if PassesFlag(s, ev, h) then 1 else 0
  {
    match ev {
      case Start(_) => AcceptorEnd(s, ev, h);
      case Stop => StopEnd(s, h);
      case Accepted(_) => AcceptorEnd(s, ev, h);
      case HandlerStartIo(g, err) => StartIoEnd(s, g, err, h);
      case HandlerStopIo(g) => StopIoEnd(s, g, h);
      case ChainEnds(g) =>
        if g in s.chain {
          ChainEndEnd(s, g, h);
        }
      case Return => ReturnEnd(s, h);
    }
  }

  lemma {:induction false} EndRun(s: Acc, evs: seq<AccEvent>, h: nat)
    requires forall g :: EndInv(s, g)
    ensures EndInv(AccRun(s, evs), h)
    ensures Ended(AccRun(s, evs), h) == Ended(s, h) + StartsOf(s, evs, h)
    decreases |evs|
  {
    if |evs| > 0 {
      forall g
        ensures EndInv(AccStep(s, evs[0]), g)
      {
        EndStep(s, evs[0], g);
      }
      EndStep(s, evs[0], h);
      EndRun(AccStep(s, evs[0]), evs[1..], h);
    }
  }

  /** In every run, for every handler, between callbacks: there is one close callback for each start_io that got past
      the flag and whose reading, if it came to that, has ended; and one more if stop_io, called by the application or
      by stop(), found the handler reading, which happens at most once. So a handler started once gets its one close
      callback exactly if it was not stopped while reading. */
  lemma {:induction false} OneCloseIff(evs: seq<AccEvent>, h: nat)
    requires AccRun(FreshAcc(), evs).frames == []
    ensures var t := AccRun(FreshAcc(), evs);
      var starts, stops := StartsOf(FreshAcc(), evs, h), NotesOf(t.trace, h, HandlerStopped);
      && ClosesOf(t.trace, h) + (if h in t.chain then 1 else 0) == starts + stops
      && stops <= 1
      && (starts == 1 && h !in t.chain ==> (ClosesOf(t.trace, h) == 1 <==> stops == 0))
  {
    EndRun(FreshAcc(), evs, h);
  }

  /** notify_me as a whole. */
  function NotifyQuiet(s: Acc, h: nat, why: Reason): Acc {
    ReturnFrom(NotifyMe(s, h, why))
  }

  lemma NotifyQuietCloses(s: Acc, h: nat, why: Reason)
    ensures var t := NotifyQuiet(s, h, why);
      && t.frames == s.frames && t.chain == s.chain && ClosesOf(t.trace, h) == ClosesOf(s.trace, h) + 1
  {
    var m := NotifyMe(s, h, why);
    assert m.frames[1..] == s.frames;
    ClosesEmit(s.trace, Failed(Some(h), why), h);
    ClosesEmit(m.trace, Closed(h, |Minus(s.live, {h})|), h);
  }

  lemma OpenHandler()
    ensures AccStep(AccStep(AccStep(FreshAcc(), Start(true)), Accepted(true)), Return)
         == Acc(true, true, 1, [0], 1, {}, {}, [], {}, {}, {}, [Opened(0, 1)])
  {
    var accepted := AccStep(AccStep(FreshAcc(), Start(true)), Accepted(true));
    assert accepted == Acc(true, true, 0, [0], 1, {}, {}, [StartAccept], {}, {}, {}, [Opened(0, 1)]);
  }

  /** It happens: stop_io on a reading handler, its notification, and that of the aborted read. */
  lemma StopIoClosesTwice()
    ensures var open := AccStep(AccStep(AccStep(FreshAcc(), Start(true)), Accepted(true)), Return);
      var stopped := AccStep(AccStep(AccStep(open, HandlerStartIo(0, false)), HandlerStopIo(0)), Return);
      var t := AccStep(AccStep(stopped, ChainEnds(0)), Return);
      t.frames == [] && 0 !in t.chain && ClosesOf(t.trace, 0) == 2
  {
    OpenHandler();
    var reading := Acc(true, true, 1, [0], 1, {0}, {0}, [], {0}, {}, {}, [Opened(0, 1)]);
    assert [] + [Opened(0, 1)] == [Opened(0, 1)];
    ClosesEmit([], Opened(0, 1), 0);
    NotifyQuietCloses(reading, 0, HandlerStopped);
    var stopped := NotifyQuiet(reading, 0, HandlerStopped);
    assert stopped.frames == [] && stopped.chain == {0};
    NotifyQuietCloses(stopped.(chain := {}), 0, SystemError);
    assert AccStep(stopped, ChainEnds(0)) == NotifyMe(stopped.(chain := {}), 0, SystemError);
  }

  // ----- stopping -----

  /** An accept that had succeeded when stop() ran is still acted on: the new handler is listed, announced and left
      alone by further calls of stop(), and another accept is begun. */
  lemma QueuedAcceptSurvivesStop(s: Acc)
    requires !s.started && s.accepting > 0 && s.frames == []
    ensures var t := AccStep(AccStep(s, Accepted(true)), Return);
      && t.live == s.live + [s.next] && t.trace == s.trace + [Opened(s.next, |s.live| + 1)]
      && t.accepting == s.accepting && AccStep(t, Stop) == t
  {
    var u := AccStep(s, Accepted(true));
    assert u.frames == [StartAccept] && u.frames[1..] == [];
  }

  /** Accepts that are outstanding, or will be begun when an open callback returns. */
  function Accepts(s: Acc): nat {
    s.accepting + multiset(s.frames)[StartAccept]
  }

  predicate Completes(s: Acc, ev: AccEvent, ok: bool) {
    ev == Accepted(ok) && s.accepting > 0
  }

  /** Accepts completed in a run, with success or with an error. */
  function Completed(s: Acc, evs: seq<AccEvent>, ok: bool): nat
    decreases |evs|
  {
    if |evs| == 0 then 0
    else (if Completes(s, evs[0], ok) then 1 else 0) + Completed(AccStep(s, evs[0]), evs[1..], ok)
  }

  predicate NoStart(evs: seq<AccEvent>) {
    forall i :: 0 <= i < |evs| ==> !evs[i].Start?
  }

  /** Nothing about accepting changed, and no open callback was made. */
  ghost predicate SameAccepts(s: Acc, t: Acc) {
    t.accepting == s.accepting && Accepts(t) == Accepts(s) && CountOpened(t.trace) == CountOpened(s.trace)
  }

  lemma NotifyAccepts(s: Acc, h: nat, why: Reason)
    ensures SameAccepts(s, NotifyMe(s, h, why))
  {
    EmitCounts(s.trace, Failed(Some(h), why));
  }

  lemma {:induction false} LoopAccepts(s: Acc, rest: seq<nat>)
    ensures SameAccepts(s, LoopOn(s, rest)) && LoopOn(s, rest).started == s.started
    decreases |rest|
  {
    if |rest| == 0 {
      EmitCounts(s.trace, Failed(None, EntityStopped));
    } else if rest[0] in s.on {
      NotifyAccepts(s.(frames := [StopLoop(rest[1..])] + s.frames), rest[0], HandlerStopped);
    } else {
      LoopAccepts(s, rest[1..]);
    }
  }

  lemma ReturnAccepts(s: Acc)
    requires !s.started
    ensures var t := ReturnFrom(s); !t.started && Accepts(t) == Accepts(s) && CountOpened(t.trace) == CountOpened(s.trace)
  {
    if |s.frames| > 0 {
      var t := s.(frames := s.frames[1..]);
      assert s.frames == [s.frames[0]] + t.frames;
      match s.frames[0] {
        case EraseThenClose(h) => EmitCounts(s.trace, Closed(h, |Minus(s.live, {h})|));
        case StopLoop(rest) => LoopAccepts(t, rest);
        case _ =>
      }
    }
  }

  lemma CompletedAccept(s: Acc, ok: bool)
    requires s.accepting > 0
    ensures var t := AccStep(s, Accepted(ok));
      && t.started == s.started && Accepts(t) == Accepts(s) - (if ok then 0 else 1)
      && CountOpened(t.trace) == CountOpened(s.trace) + (if ok then 1 else 0)
  {
    if ok {
      EmitCounts(s.trace, Opened(s.next, |s.live| + 1));
    } else {
      EmitCounts(s.trace, Failed(None, SystemError));
    }
  }

  lemma HandlerAccepts(s: Acc, ev: AccEvent)
    requires ev.HandlerStartIo? || ev.HandlerStopIo? || ev.ChainEnds?
    ensures SameAccepts(s, AccStep(s, ev)) && AccStep(s, ev).started == s.started
  {
    var t := AccStep(s, ev);
    if t.trace != s.trace {
      var h := ev.h;
      EmitCounts(s.trace, Failed(Some(h), if ev.HandlerStopIo? then HandlerStopped else SystemError));
      assert t.frames == [EraseThenClose(h)] + s.frames;
    }
  }

  lemma StoppedStep(s: Acc, ev: AccEvent)
    requires !s.started && !ev.Start?
    ensures var t := AccStep(s, ev);
      && !t.started
      && Accepts(t) == Accepts(s) - (if Completes(s, ev, false) then 1 else 0)
      && CountOpened(t.trace) == CountOpened(s.trace) + (if Completes(s, ev, true) then 1 else 0)
  {
    match ev {
      case Accepted(ok) =>
        if s.accepting > 0 {
          CompletedAccept(s, ok);
        }
      case Return => ReturnAccepts(s);
      case Stop =>
      case _ => HandlerAccepts(s, ev);
    }
  }

  lemma {:induction false} StoppedRun(s: Acc, evs: seq<AccEvent>)
    requires !s.started && NoStart(evs)
    ensures var t := AccRun(s, evs);
      && !t.started
      && Accepts(t) == Accepts(s) - Completed(s, evs, false)
      && CountOpened(t.trace) == CountOpened(s.trace) + Completed(s, evs, true)
    decreases |evs|
  {
    if |evs| > 0 {
      var t := AccStep(s, evs[0]);
      StoppedStep(s, evs[0]);
      StoppedRun(t, evs[1..]);
      assert AccRun(s, evs) == AccRun(t, evs[1..]);
    }
  }

  lemma {:induction false} NoAcceptsRun(s: Acc, evs: seq<AccEvent>)
    requires !s.started && NoStart(evs) && Accepts(s) == 0
    ensures Completed(s, evs, true) == 0
    decreases |evs|
  {
    if |evs| > 0 {
      StoppedStep(s, evs[0]);
      NoAcceptsRun(AccStep(s, evs[0]), evs[1..]);
    }
  }

  /** From any stopped state, in every run without a new start, calls from inside callbacks included: as many open
      callbacks are made as accepts complete with success, so none exactly if they all complete with an error; and
      when all have, no accept is outstanding and no handler announced ever after. */
  lemma {:induction false} AcceptorStopIsFinalIff(s: Acc, evs: seq<AccEvent>, later: seq<AccEvent>)
    requires !s.started && NoStart(evs) && NoStart(later)
    ensures var t := AccRun(s, evs);
      && CountOpened(t.trace) == CountOpened(s.trace) + Completed(s, evs, true)
      && (CountOpened(t.trace) == CountOpened(s.trace) <==> Completed(s, evs, true) == 0)
      && Accepts(t) == Accepts(s) - Completed(s, evs, false)
      && (Completed(s, evs, false) == Accepts(s) ==>
           var v := AccRun(t, later); v.accepting == 0 && CountOpened(v.trace) == CountOpened(t.trace))
  {
    StoppedRun(s, evs);
    var t := AccRun(s, evs);
    StoppedRun(t, later);
    if Accepts(t) == 0 {
      NoAcceptsRun(t, later);
    }
  }

  /** So, asked between callbacks: a stopped acceptor stays silent, whatever happens short of a new start, exactly if
      no accept is outstanding. */
  lemma {:induction false} StaysSilentIff(s: Acc)
    requires !s.started && s.frames == []
    ensures (forall evs :: NoStart(evs) ==> CountOpened(AccRun(s, evs).trace) == CountOpened(s.trace)) <==> s.accepting == 0
  {
    if s.accepting == 0 {
      forall evs | NoStart(evs)
        ensures CountOpened(AccRun(s, evs).trace) == CountOpened(s.trace)
      {
        StoppedRun(s, evs);
        NoAcceptsRun(s, evs);
      }
    } else {
      var evs := [Accepted(true)];
      StoppedRun(s, evs);
      assert Completed(s, evs, true) == 1;
      assert NoStart(evs);
    }
  }

  // ----- starting while stop is still in progress -----

  ghost predicate Stopping(fs: seq<Frame>) {
    exists f :: f in fs && (f.StopLoop? || f.CloseAcceptor?)
  }

  /** The latest start of a run succeeded inside a callback of a stop() that had not returned; `before` says so of the
      latest start before the run. */
  ghost predicate Overtaking(s: Acc, evs: seq<AccEvent>, before: bool)
    decreases |evs|
  {
    if |evs| == 0 then before
    else Overtaking(AccStep(s, evs[0]), evs[1..], if evs[0].Start? && !s.started then Stopping(s.frames) else before)
  }

  ghost predicate ListenInv(s: Acc, overtaking: bool) {
    s.started ==>
      if overtaking then Stopping(s.frames) || !s.listening
      else !Stopping(s.frames) && (s.listening || StopAfterError in s.frames)
  }

  /** A frame that is no part of stop() leaves these matters alone. */
  lemma PushListen(s: Acc, f: Frame, o: bool)
    requires ListenInv(s, o) && !f.StopLoop? && !f.CloseAcceptor?
    ensures ListenInv(s.(frames := [f] + s.frames), o)
  {
    var t := s.(frames := [f] + s.frames);
    assert forall g :: g in t.frames <==> g == f || g in s.frames;
  }

  lemma {:induction false} LoopListen(s: Acc, rest: seq<nat>)
    ensures var t := LoopOn(s, rest); Stopping(t.frames) && t.started == s.started && t.listening == s.listening
    decreases |rest|
  {
    if |rest| == 0 {
      assert CloseAcceptor in LoopOn(s, rest).frames;
    } else if rest[0] in s.on {
      assert LoopOn(s, rest).frames[1] == StopLoop(rest[1..]);
    } else {
      LoopListen(s, rest[1..]);
    }
  }

  lemma ReturnListen(s: Acc, o: bool)
    requires ListenInv(s, o)
    ensures ListenInv(ReturnFrom(s), o)
  {
    if |s.frames| > 0 {
      var t := s.(frames := s.frames[1..]);
      assert s.frames == [s.frames[0]] + t.frames;
      assert s.frames[0] in s.frames;
      match s.frames[0] {
        case StopLoop(rest) => LoopListen(t, rest);
        case StopAfterError => LoopListen(t.(started := false), t.live);
        case CloseAcceptor =>
        case _ => assert forall g :: g in s.frames <==> g == s.frames[0] || g in t.frames;
      }
    }
  }

  lemma ListenStep(s: Acc, ev: AccEvent, o: bool)
    requires ListenInv(s, o)
    ensures ListenInv(AccStep(s, ev), if ev.Start? && !s.started then Stopping(s.frames) else o)
  {
    match ev {
      case Start(bindOk) =>
        if !s.started && !bindOk {
          var t := AccStep(s, ev);
          assert t.frames[0] == StopAfterError;
          assert forall f :: f in t.frames <==> f == StopAfterError || f in s.frames;
        }
      case Stop => LoopListen(s.(started := false), s.live);
      case Accepted(ok) => PushListen(s, if ok then StartAccept else StopAfterError, o);
      case HandlerStartIo(h, _) => PushListen(s, EraseThenClose(h), o);
      case HandlerStopIo(h) => PushListen(s, EraseThenClose(h), o);
      case ChainEnds(h) => PushListen(s, EraseThenClose(h), o);
      case Return => ReturnListen(s, o);
    }
  }

  lemma {:induction false} ListenRun(s: Acc, evs: seq<AccEvent>, o: bool)
    requires ListenInv(s, o)
    ensures ListenInv(AccRun(s, evs), Overtaking(s, evs, o))
    decreases |evs|
  {
    if |evs| > 0 {
      ListenStep(s, evs[0], o);
      ListenRun(AccStep(s, evs[0]), evs[1..], if evs[0].Start? && !s.started then Stopping(s.frames) else o);
    }
  }

  /** In every reachable state without a callback in progress, a started acceptor listens exactly if its latest start
      was not made inside a callback of a stop() still in progress, which then closes the new socket. */
  lemma {:induction false} ListensIff(evs: seq<AccEvent>)
    ensures var s := AccRun(FreshAcc(), evs);
      s.started && s.frames == [] ==> (s.listening <==> !Overtaking(FreshAcc(), evs, false))
  {
    ListenRun(FreshAcc(), evs, false);
  }

  /** Such a start leaves an acceptor that is started and does not listen. */
  lemma RestartInsideStop()
    ensures var t := AccStep(AccStep(AccStep(AccStep(FreshAcc(), Start(true)), Stop), Start(true)), Return);
      t.started && !t.listening && t.frames == []
  {
  }

  // ----- callbacks that return at once -----

  /** The rest of stop(), from the loop on. */
  function LoopQuiet(s: Acc, rest: seq<nat>): Acc
    decreases |rest|
  {
    if |rest| == 0 then s.(trace := s.trace + [Failed(None, EntityStopped)], listening := false)
    else LoopQuiet(if rest[0] in s.on then NotifyQuiet(s, rest[0], HandlerStopped) else s, rest[1..])
  }

  function StopQuiet(s: Acc): Acc {
    if s.started then LoopQuiet(s.(started := false), s.live) else s
  }

  function Returns(s: Acc, n: nat): Acc
    decreases n
  {
    if n == 0 then s else Returns(ReturnFrom(s), n - 1)
  }

  /** The steps of stop(), with every callback returning at once, add up to LoopQuiet. */
  lemma {:induction false} LoopIsQuiet(s: Acc, rest: seq<nat>) returns (n: nat)
    ensures Returns(LoopOn(s, rest), n) == LoopQuiet(s, rest)
    decreases |rest|
  {
    if |rest| == 0 {
      n := 1;
      var t := LoopOn(s, rest);
      assert t.frames[1..] == s.frames;
      assert Returns(ReturnFrom(t), 0) == ReturnFrom(t);
    } else if rest[0] in s.on {
      var t := LoopOn(s, rest);
      var u := NotifyQuiet(s, rest[0], HandlerStopped);
      n := LoopIsQuiet(u, rest[1..]);
      assert t.frames[1..] == [StopLoop(rest[1..])] + s.frames;
      assert t.frames[1..][1..] == s.frames == u.frames;
      var v := ReturnFrom(t);
      assert v == u.(frames := [StopLoop(rest[1..])] + s.frames);
      assert v.frames[1..] == s.frames;
      assert ReturnFrom(v) == LoopOn(u, rest[1..]);
      assert Returns(t, n + 2) == Returns(v, n + 1) == Returns(ReturnFrom(v), n);
      n := n + 2;
    } else {
      n := LoopIsQuiet(s, rest[1..]);
    }
  }

  /** What stop() tells the application: for every started handler in the copied list one error and one close, with
      counts falling by one, and at the end the acceptor's own error. */
  function StopCallbacks(iohs: seq<nat>, on: set<nat>, count: nat): seq<Callback>
    decreases |iohs|
  {
    if |iohs| == 0 then [Failed(None, EntityStopped)]
    else if iohs[0] in on && count > 0 then
      [Failed(Some(iohs[0]), HandlerStopped), Closed(iohs[0], count - 1)] + StopCallbacks(iohs[1..], on, count - 1)
    else StopCallbacks(iohs[1..], on, count)
  }

  lemma {:induction false} MinusMinus(live: seq<nat>, a: set<nat>, b: set<nat>)
    ensures Minus(Minus(live, a), b) == Minus(live, a + b)
  {
    if |live| > 0 {
      var m := Minus(live[1..], a);
      MinusMinus(live[1..], a, b);
      if live[0] in a {
        assert Minus(live, a) == m;
      } else {
        assert Minus(live, a)[0] == live[0] && Minus(live, a)[1..] == m;
      }
    }
  }

  lemma {:induction false} MinusOne(live: seq<nat>, h: nat)
    requires Ascending(live)
    ensures |Minus(live, {h})| == if h in live then |live| - 1 else |live|
    ensures h !in live ==> Minus(live, {h}) == live
  {
    if |live| > 0 {
      MinusOne(live[1..], h);
      assert h in live <==> h == live[0] || h in live[1..];
      assert forall i :: 0 < i < |live| ==> live[i] == live[1..][i - 1];
    }
  }

  function Started(rest: seq<nat>, on: set<nat>): set<nat> {
    set h | h in rest && h in on
  }

  lemma TailFacts(rest: seq<nat>, on: set<nat>)
    requires |rest| > 0 && Ascending(rest)
    ensures Ascending(rest[1..]) && rest[0] !in rest[1..]
    ensures forall h: nat :: h in rest <==> h == rest[0] || h in rest[1..]
    ensures rest[0] in on ==> Started(rest, on) == {rest[0]} + Started(rest[1..], on)
    ensures rest[0] !in on ==> Started(rest, on) == Started(rest[1..], on)
    ensures Started(rest[1..], on - {rest[0]}) == Started(rest[1..], on)
  {
    var tail := rest[1..];
    assert rest == [rest[0]] + tail;
    forall i | 0 <= i < |tail|
      ensures rest[0] < tail[i]
    {
      assert tail[i] == rest[i + 1];
    }
  }

  lemma {:induction false} MinusNone(live: seq<nat>)
    ensures Minus(live, {}) == live
  {
    if |live| > 0 {
      MinusNone(live[1..]);
    }
  }

  lemma {:induction false} SameCallbacks(rest: seq<nat>, a: set<nat>, b: set<nat>, count: nat)
    requires forall h :: h in rest ==> (h in a <==> h in b)
    ensures StopCallbacks(rest, a, count) == StopCallbacks(rest, b, count)
    decreases |rest|
  {
    if |rest| > 0 {
      assert rest[0] in rest && forall h :: h in rest[1..] ==> h in rest;
      SameCallbacks(rest[1..], a, b, count);
      if count > 0 {
        SameCallbacks(rest[1..], a, b, count - 1);
      }
    }
  }

  lemma CallbacksStep(tr: seq<Callback>, rest: seq<nat>, on: set<nat>, count: nat)
    requires |rest| > 0 && Ascending(rest) && rest[0] in on && count > 0
    ensures (tr + [Failed(Some(rest[0]), HandlerStopped), Closed(rest[0], count - 1)])
              + StopCallbacks(rest[1..], on - {rest[0]}, count - 1)
         == tr + StopCallbacks(rest, on, count)
  {
    TailFacts(rest, on);
    SameCallbacks(rest[1..], on, on - {rest[0]}, count - 1);
    Assoc(tr, [Failed(Some(rest[0]), HandlerStopped), Closed(rest[0], count - 1)], StopCallbacks(rest[1..], on, count - 1));
  }

  /** One started handler of the loop, and what the rest of the loop will then add up to. */
  lemma LoopEffectStarted(s: Acc, rest: seq<nat>)
    requires Ascending(s.live) && Ascending(rest) && forall h: nat :: h in rest ==> h in s.live
    requires |rest| > 0 && rest[0] in s.on
    ensures var u := NotifyQuiet(s, rest[0], HandlerStopped);
      && u.live == Minus(s.live, {rest[0]}) && |u.live| == |s.live| - 1
      && Ascending(u.live) && (forall h: nat :: h in rest[1..] ==> h in u.live)
      && u.frames == s.frames && u.started == s.started && u.on == s.on - {rest[0]}
      && u.trace == s.trace + [Failed(Some(rest[0]), HandlerStopped), Closed(rest[0], |u.live|)]
      && Minus(u.live, Started(rest[1..], s.on)) == Minus(s.live, Started(rest, s.on))
  {
    TailFacts(rest, s.on);
    assert rest[0] in s.live;
    MinusIs(s.live, {rest[0]});
    MinusOne(s.live, rest[0]);
    MinusMinus(s.live, {rest[0]}, Started(rest[1..], s.on));
    assert NotifyMe(s, rest[0], HandlerStopped).frames[1..] == s.frames;
  }

  lemma {:induction false} LoopEffect(s: Acc, rest: seq<nat>)
    requires Ascending(s.live) && Ascending(rest) && forall h :: h in rest ==> h in s.live
    ensures var t := LoopQuiet(s, rest);
      && t.live == Minus(s.live, Started(rest, s.on))
      && t.trace == s.trace + StopCallbacks(rest, s.on, |s.live|)
      && t.on == s.on - Started(rest, s.on)
      && t.frames == s.frames && t.started == s.started && !t.listening
    decreases |rest|
  {
    if |rest| == 0 {
      MinusNone(s.live);
      assert Started(rest, s.on) == {};
    } else {
      TailFacts(rest, s.on);
      if rest[0] in s.on {
        LoopEffectStarted(s, rest);
        assert rest[0] in s.live;
        CallbacksStep(s.trace, rest, s.on, |s.live|);
        LoopEffect(NotifyQuiet(s, rest[0], HandlerStopped), rest[1..]);
      } else {
        LoopEffect(s, rest[1..]);
      }
    }
  }

  lemma {:induction false} SameMinus(live: seq<nat>, a: set<nat>, b: set<nat>)
    requires forall h :: h in live ==> (h in a <==> h in b)
    ensures Minus(live, a) == Minus(live, b)
  {
    if |live| > 0 {
      assert live[0] in live && forall h :: h in live[1..] ==> h in live;
      SameMinus(live[1..], a, b);
    }
  }

  /** stop() in a reachable state, with callbacks that return at once: iterating the copy while notify_me erases from
      the original leaves exactly the handlers whose IO was never started, in order, after the announced callbacks;
      and a second stop changes nothing. */
  lemma {:induction false} AcceptorStop(evs: seq<AccEvent>)
    requires AccRun(FreshAcc(), evs).frames == [] && AccRun(FreshAcc(), evs).started
    ensures var s := AccRun(FreshAcc(), evs);
      var t := StopQuiet(s);
      && t.live == Minus(s.live, s.ever)
      && t.trace == s.trace + StopCallbacks(s.live, s.ever, |s.live|)
      && t.frames == [] && !t.started && !t.listening
      && StopQuiet(t) == t && StopAcc(t) == t
      && exists n :: Returns(AccStep(s, Stop), n) == t
  {
    var s := AccRun(FreshAcc(), evs);
    AcceptorLiveSet(evs);
    var u := s.(started := false);
    LoopEffect(u, s.live);
    SameCallbacks(s.live, s.on, s.ever, |s.live|);
    SameMinus(s.live, Started(s.live, s.on), s.ever);
    var n := LoopIsQuiet(u, s.live);
    assert Returns(AccStep(s, Stop), n) == StopQuiet(s);
  }

  /** A stop has run to its end, with callbacks that returned at once: only the handlers that were never started are
      still listed, and `tr` has been told. */
  ghost predicate StoppedFrom(s: Acc, tr: seq<Callback>, t: Acc) {
    && !t.started && !t.listening && t.frames == s.frames && t.next == s.next
    && t.live == Minus(s.live, s.on) && t.on == s.on - Started(s.live, s.on)
    && t.trace == tr + StopCallbacks(s.live, s.on, |s.live|)
  }

  lemma {:induction false} LoopKeepsAccepts(s: Acc, rest: seq<nat>)
    ensures var t := LoopQuiet(s, rest); t.accepting == s.accepting && t.next == s.next
    decreases |rest|
  {
    if |rest| > 0 {
      LoopKeepsAccepts(if rest[0] in s.on then NotifyQuiet(s, rest[0], HandlerStopped) else s, rest[1..]);
    }
  }

  lemma StopQuietIs(s: Acc)
    requires s.started && Ascending(s.live)
    ensures StoppedFrom(s, s.trace, StopQuiet(s)) && StopQuiet(s).accepting == s.accepting
  {
    LoopEffect(s.(started := false), s.live);
    LoopKeepsAccepts(s.(started := false), s.live);
    SameMinus(s.live, Started(s.live, s.on), s.on);
  }

  /** The returns after a failure, which stop the acceptor if it is started. */
  lemma FailureReturns(s: Acc) returns (n: nat)
    requires Ascending(s.live)
    ensures var t := Returns(FailThenStop(s), n);
      && t.accepting == s.accepting
      && (s.started ==> StoppedFrom(s, s.trace + [Failed(None, SystemError)], t))
      && t == StopQuiet(s.(trace := s.trace + [Failed(None, SystemError)]))
      && (!s.started ==> t == s.(trace := s.trace + [Failed(None, SystemError)]))
  {
    var f := FailThenStop(s);
    var g := s.(trace := s.trace + [Failed(None, SystemError)]);
    assert f.frames[1..] == s.frames;
    assert ReturnFrom(f) == StopAcc(g);
    if s.started {
      StopQuietIs(g);
      n := LoopIsQuiet(g.(started := false), g.live);
      assert Returns(f, n + 1) == Returns(ReturnFrom(f), n);
      n := n + 1;
    } else {
      n := 1;
      assert Returns(f, 1) == Returns(ReturnFrom(f), 0);
    }
  }

  /** An accept that completes with an error, in any reachable state: the application is told of it, and if the acceptor
      was started it ends stopped, its socket closed and every started handler notified and erased, as after stop(). */
  lemma {:induction false} AcceptErrorStops(evs: seq<AccEvent>) returns (n: nat)
    requires AccRun(FreshAcc(), evs).frames == [] && AccRun(FreshAcc(), evs).accepting > 0
    ensures var s := AccRun(FreshAcc(), evs);
      var t := Returns(AccStep(s, Accepted(false)), n);
      && t.accepting == s.accepting - 1 && t.frames == []
      && (s.started ==> && !t.started && !t.listening && t.live == Minus(s.live, s.ever)
                        && t.trace == s.trace + [Failed(None, SystemError)] + StopCallbacks(s.live, s.ever, |s.live|))
      && (!s.started ==> t == s.(accepting := s.accepting - 1, trace := s.trace + [Failed(None, SystemError)]))
  {
    var s := AccRun(FreshAcc(), evs);
    AcceptorLiveSet(evs);
    n := FailureReturns(s.(accepting := s.accepting - 1));
    SameCallbacks(s.live, s.on, s.ever, |s.live|);
    SameMinus(s.live, s.on, s.ever);
  }

  /** A start whose bind fails, in any reachable state: the acceptor ends stopped, after the same callbacks. */
  lemma {:induction false} BindErrorStops(evs: seq<AccEvent>) returns (n: nat)
    requires AccRun(FreshAcc(), evs).frames == [] && !AccRun(FreshAcc(), evs).started
    ensures var s := AccRun(FreshAcc(), evs);
      var t := Returns(AccStep(s, Start(false)), n);
      && !t.started && !t.listening && t.accepting == s.accepting && t.frames == []
      && t.live == Minus(s.live, s.ever)
      && t.trace == s.trace + [Failed(None, SystemError)] + StopCallbacks(s.live, s.ever, |s.live|)
  {
    var s := AccRun(FreshAcc(), evs);
    AcceptorLiveSet(evs);
    n := FailureReturns(s.(started := true));
    SameCallbacks(s.live, s.on, s.ever, |s.live|);
    SameMinus(s.live, s.on, s.ever);
  }

  lemma FirstReturn(tr: seq<Callback>)
    ensures ReturnFrom(Acc(true, true, 0, [0], 1, {0}, {0}, [StopAfterError], {0}, {}, {}, tr))
         == Acc(false, true, 0, [0], 1, {}, {0}, [EraseThenClose(0), StopLoop([])], {0}, {0}, {}, tr + [Failed(Some(0), HandlerStopped)])
  {
    var live: seq<nat> := [0];
    assert live[1..] == [];
    var s := Acc(false, true, 0, live, 1, {0}, {0}, [], {0}, {}, {}, tr);
    assert LoopOn(s, live) == NotifyMe(s.(frames := [StopLoop([])]), 0, HandlerStopped);
  }

  lemma SecondReturn(tr: seq<Callback>)
    ensures ReturnFrom(Acc(false, true, 0, [0], 1, {}, {0}, [EraseThenClose(0), StopLoop([])], {0}, {0}, {}, tr))
         == Acc(false, true, 0, [], 1, {}, {0}, [StopLoop([])], {0}, {0}, {0}, tr + [Closed(0, 0)])
  {
    var live: seq<nat> := [0];
    assert live[1..] == [] && Minus(live, {0}) == [];
  }

  /** The four returns by which an acceptor with one reading handler stops after an error. */
  lemma StopReturns(tr: seq<Callback>) returns (t: Acc)
    ensures t == Returns(Acc(true, true, 0, [0], 1, {0}, {0}, [StopAfterError], {0}, {}, {}, tr), 4)
    ensures t == Acc(false, false, 0, [], 1, {}, {0}, [], {0}, {0}, {0},
                     tr + [Failed(Some(0), HandlerStopped)] + [Closed(0, 0)] + [Failed(None, EntityStopped)])
  {
    var one, two := tr + [Failed(Some(0), HandlerStopped)], tr + [Failed(Some(0), HandlerStopped)] + [Closed(0, 0)];
    var three := two + [Failed(None, EntityStopped)];
    var r0 := Acc(true, true, 0, [0], 1, {0}, {0}, [StopAfterError], {0}, {}, {}, tr);
    var r1 := Acc(false, true, 0, [0], 1, {}, {0}, [EraseThenClose(0), StopLoop([])], {0}, {0}, {}, one);
    var r2 := Acc(false, true, 0, [], 1, {}, {0}, [StopLoop([])], {0}, {0}, {0}, two);
    var r3 := Acc(false, true, 0, [], 1, {}, {0}, [CloseAcceptor], {0}, {0}, {0}, three);
    FirstReturn(tr);
    SecondReturn(one);
    assert ReturnFrom(r2) == r3;
    t := ReturnFrom(r3);
    assert Returns(r0, 4) == Returns(r1, 3) == Returns(r2, 2) == Returns(r3, 1) == Returns(t, 0);
  }

  /** A session with one reading handler, from its start to a failed accept, word for word. */
  lemma WholeSession()
    ensures var open := AccStep(AccStep(AccStep(FreshAcc(), Start(true)), Accepted(true)), Return);
      var t := Returns(AccStep(AccStep(open, HandlerStartIo(0, false)), Accepted(false)), 4);
      && open.started && open.listening && open.accepting == 1 && open.live == [0]
      && !t.started && !t.listening && t.accepting == 0 && t.live == [] && t.on == {} && t.frames == []
      && t.trace == [Opened(0, 1), Failed(None, SystemError), Failed(Some(0), HandlerStopped), Closed(0, 0), Failed(None, EntityStopped)]
  {
    OpenHandler();
    var reading := Acc(true, true, 1, [0], 1, {0}, {0}, [], {0}, {}, {}, [Opened(0, 1)]);
    assert AccStep(reading, Accepted(false))
        == Acc(true, true, 0, [0], 1, {0}, {0}, [StopAfterError], {0}, {}, {}, [Opened(0, 1), Failed(None, SystemError)]);
    var t := StopReturns([Opened(0, 1), Failed(None, SystemError)]);
  }

  // ----- the class -----

  lemma NotifyQuietIs(s: Acc, h: nat, why: Reason)
    ensures var t := NotifyQuiet(s, h, why);
      && t.frames == s.frames && t.live == Minus(s.live, {h}) && t.on == s.on - {h}
      && t.trace == s.trace + [Failed(Some(h), why), Closed(h, |t.live|)]
      && t.started == s.started && t.listening == s.listening && t.accepting == s.accepting && t.next == s.next
  {
    var m := NotifyMe(s, h, why);
    assert m.frames[1..] == s.frames;
    assert s.trace + [Failed(Some(h), why)] + [Closed(h, |Minus(s.live, {h})|)]
        == s.trace + [Failed(Some(h), why), Closed(h, |Minus(s.live, {h})|)];
  }

  /** The acceptor with callbacks that return at once. A handler is known by its number; `ioStarted` collects the
      numbers of those whose is_io_started is true. */
  class TcpAcceptor<C> {
    const entity: NetEntityCommon<C>
    var acceptorOpen: bool
    var pendingAccepts: nat
    var ioHandlers: seq<nat>
    var nextHandler: nat
    var ioStarted: set<nat>
    ghost var machine: Acc

    ghost predicate Valid() reads this, entity {
      && machine.started == entity.started && machine.listening == acceptorOpen
      && machine.accepting == pendingAccepts && machine.live == ioHandlers
      && machine.next == nextHandler && machine.on == ioStarted && machine.frames == []
      && Ascending(ioHandlers) && forall h :: h in ioHandlers ==> h < nextHandler
    }

    constructor ()
      ensures Valid() && machine == FreshAcc() && fresh(entity)
    {
      entity := new NetEntityCommon();
      acceptorOpen, pendingAccepts, ioHandlers, nextHandler, ioStarted := false, 0, [], 0, {};
      machine := FreshAcc();
    }

    method Start(cbs: C, bindOk: bool) returns (ok: bool)
      requires Valid()
      modifies this, entity
      ensures Valid() && (ok <==> !old(entity.started) && bindOk)
      ensures old(entity.started) || bindOk ==> machine == AccStep(old(machine), AccEvent.Start(bindOk))
      ensures !old(entity.started) && !bindOk ==> exists n :: machine == Returns(AccStep(old(machine), AccEvent.Start(false)), n)
      // started already: nothing happens; otherwise the callbacks are stored
      ensures old(entity.started) ==> machine == old(machine) && entity.callbacks == old(entity.callbacks)
      ensures !old(entity.started) ==> entity.callbacks == Some(cbs)
      ensures ok ==> entity.started && acceptorOpen && pendingAccepts == old(pendingAccepts) + 1
                     && ioHandlers == old(ioHandlers) && ioStarted == old(ioStarted) && machine.trace == old(machine.trace)
      ensures !old(entity.started) && !bindOk ==>
                && !entity.started && !acceptorOpen && pendingAccepts == old(pendingAccepts)
                && ioHandlers == Minus(old(ioHandlers), old(ioStarted))
                && machine.trace == old(machine.trace) + [Failed(None, SystemError)]
                                    + StopCallbacks(old(ioHandlers), old(ioStarted), |old(ioHandlers)|)
    {
      var go := entity.Start(cbs);
      if !go {
        return false;
      }
      if !bindOk {
        ghost var n := FailureReturns(machine.(started := true));
        machine := machine.(started := true, trace := machine.trace + [Failed(None, SystemError)]);
        var _ := Stop();
        assert machine == Returns(AccStep(old(machine), AccEvent.Start(false)), n);
        return false;
      }
      acceptorOpen := true;
      machine := machine.(started := true, listening := true);
      StartAccept();
      ok := true;
    }

    method StartAccept()
      requires Valid()
      modifies `pendingAccepts, `machine
      ensures Valid() && machine == old(machine).(accepting := old(machine.accepting) + 1)
    {
      pendingAccepts := pendingAccepts + 1;
      machine := machine.(accepting := machine.accepting + 1);
    }

    method Stop() returns (ok: bool)
      requires Valid()
      modifies this, entity
      ensures Valid() && machine == StopQuiet(old(machine)) && (ok <==> old(entity.started))
      ensures entity.callbacks == old(entity.callbacks) && pendingAccepts == old(pendingAccepts)
      ensures !ok ==> machine == old(machine)
      ensures ok ==> StoppedFrom(old(machine), old(machine.trace), machine)
      ensures ok ==> !entity.started && !acceptorOpen && ioHandlers == Minus(old(ioHandlers), old(ioStarted))
    {
      var was := entity.Stop();
      if !was {
        return false; // stop already called
      }
      StopQuietIs(machine);
      MinusIs(ioHandlers, ioStarted);
      machine := machine.(started := false);
      ghost var begin := machine;
      var iohs := ioHandlers;
      for i := 0 to |iohs|
        invariant Valid() && !entity.started && unchanged(entity`callbacks)
        invariant LoopQuiet(machine, iohs[i..]) == LoopQuiet(begin, iohs)
      {
        if iohs[i] in ioStarted { // stop_io notifies a started handler's owner
          NotifyMe(iohs[i], HandlerStopped);
        }
        assert iohs[i..][1..] == iohs[i + 1..];
      }
      machine := machine.(trace := machine.trace + [Failed(None, EntityStopped)], listening := false);
      acceptorOpen := false;
      ok := true;
    }

    method NotifyMe(h: nat, why: Reason)
      requires Valid()
      modifies `ioHandlers, `ioStarted, `machine
      ensures Valid() && machine == NotifyQuiet(old(machine), h, why)
      ensures ioStarted == old(ioStarted) - {h} && ioHandlers == Minus(old(ioHandlers), {h})
      ensures machine.trace == old(machine.trace) + [Failed(Some(h), why), Closed(h, |ioHandlers|)]
    {
      NotifyQuietIs(machine, h, why);
      MinusIs(ioHandlers, {h});
      machine := NotifyQuiet(machine, h, why);
      ioStarted := ioStarted - {h};
      ioHandlers := Minus(ioHandlers, {h});
    }

    method HandleAccept(err: bool)
      requires Valid() && pendingAccepts > 0
      modifies this, entity
      ensures Valid() && entity.callbacks == old(entity.callbacks)
      ensures !err ==> machine == ReturnFrom(AccStep(old(machine), Accepted(true)))
      ensures err ==> exists n :: machine == Returns(AccStep(old(machine), Accepted(false)), n)
      ensures !err ==> && ioHandlers == old(ioHandlers) + [old(nextHandler)] && nextHandler == old(nextHandler) + 1
                       && machine.trace == old(machine.trace) + [Opened(old(nextHandler), |ioHandlers|)]
                       && pendingAccepts == old(pendingAccepts) && ioStarted == old(ioStarted)
                       && entity.started == old(entity.started) && acceptorOpen == old(acceptorOpen)
      ensures err ==> pendingAccepts == old(pendingAccepts) - 1 && !entity.started
      ensures err && old(entity.started) ==>
                && !acceptorOpen && ioHandlers == Minus(old(ioHandlers), old(ioStarted))
                && machine.trace == old(machine.trace) + [Failed(None, SystemError)]
                                    + StopCallbacks(old(ioHandlers), old(ioStarted), |old(ioHandlers)|)
      ensures err && !old(entity.started) ==>
                ioHandlers == old(ioHandlers) && machine.trace == old(machine.trace) + [Failed(None, SystemError)]
    {
      pendingAccepts := pendingAccepts - 1;
      if err {
        ghost var n := FailureReturns(machine.(accepting := machine.accepting - 1));
        machine := machine.(accepting := machine.accepting - 1, trace := machine.trace + [Failed(None, SystemError)]);
        var _ := Stop();
        assert machine == Returns(AccStep(old(machine), Accepted(false)), n);
        return;
      }
      machine := AcceptedOk(machine).(frames := []);
      AppendAscending(ioHandlers, nextHandler);
      ioHandlers := ioHandlers + [nextHandler];
      nextHandler := nextHandler + 1;
      StartAccept();
    }
  }
}
