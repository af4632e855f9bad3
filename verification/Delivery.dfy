/** Promises fulfilled by the state change callbacks (include/net_ip/component/io_interface_delivery.hpp). */
module Delivery {
  import opened Bytes
  import opened NetEntity

  /** The start and stop promise of one call of make_io_interface_future_pair_impl. `threw` records that a promise
      was set a second time, which std::promise answers with an exception. */
  datatype Pair = Pair(startSet: bool, stopSet: bool, threw: bool)

  function OnStateChange(p: Pair, starting: bool): Pair {
    if starting then p.(startSet := true, threw := p.threw || p.startSet)
    else p.(stopSet := true, threw := p.threw || p.stopSet)
  }

  /** The pair whose callback is the one stored by start number `g`, after the callbacks of `tr`. */
  function Fed(tr: seq<Callback>, g: nat): Pair {
    if |tr| == 0 then Pair(false, false, false)
    else
      var p := Fed(tr[..|tr| - 1], g);
      match tr[|tr| - 1]
      case Opened(h, _) => if h == g then OnStateChange(p, true) else p
      case Closed(h, _) => if h == g then OnStateChange(p, false) else p
      case Failed(_, _) => p
  }

  /** Which callbacks have been seen: after start `g` opened, or with everything up to start `last` closed again. */
  datatype Side = Shut(last: nat) | Up(g: nat) | Broken

  function SideAfter(s: Side, c: Callback): Side {
    match (s, c)
    case (Shut(last), Opened(g, n)) => if g > last && n == 1 then Up(g) else Broken
    case (Up(g), Closed(h, n)) => if g == h && n == 0 then Shut(g) else Broken
    case (_, Failed(_, _)) => s
    case _ => Broken
  }

  /** Open and close callbacks take turns, each close with the start of its open, and starts in rising order: the side
      is not broken. */
  function SideOf(tr: seq<Callback>): Side {
    if |tr| == 0 then Shut(0) else SideAfter(SideOf(tr[..|tr| - 1]), tr[|tr| - 1])
  }

  lemma SideEmit(tr: seq<Callback>, c: Callback)
    ensures SideOf(tr + [c]) == SideAfter(SideOf(tr), c)
  {
    assert (tr + [c])[..|tr|] == tr;
  }

  /** While callbacks take turns, each promise is set at most once, start before stop: no pair ever throws. */
  lemma {:induction false} PromisesSetOnce(tr: seq<Callback>, g: nat)
    requires SideOf(tr) != Broken
    ensures var p := Fed(tr, g);
      && !p.threw && (p.stopSet ==> p.startSet)
      && match SideOf(tr) {
        case Shut(last) => p.startSet == p.stopSet && (g > last ==> !p.startSet)
        case Up(u) => (g == u ==> p.startSet && !p.stopSet) && (g != u ==> p.startSet == p.stopSet) && (g > u ==> !p.startSet)
        case Broken => true
      }
    decreases |tr|
  {
    if |tr| > 0 {
      PromisesSetOnce(tr[..|tr| - 1], g);
    }
  }

  /** A second close callback for the same start sets the stop promise twice. */
  lemma SecondCloseThrows(tr: seq<Callback>, g: nat)
    requires Fed(tr, g).stopSet
    ensures Fed(tr + [Closed(g, 0)], g).threw
  {
    assert (tr + [Closed(g, 0)])[..|tr|] == tr;
  }

  /** The pair of an entity that was started once: its callback gets every state change. */
  function PairOf(tr: seq<Callback>): Pair {
    if |tr| == 0 then Pair(false, false, false)
    else
      var p, c := PairOf(tr[..|tr| - 1]), tr[|tr| - 1];
      if c.Failed? then p else OnStateChange(p, c.Opened?)
  }

  /** Its promises are set by the first open and the first close callback, and a second of either kind throws. */
  lemma {:induction false} PairOfIs(tr: seq<Callback>)
    ensures PairOf(tr) == Pair(CountOpened(tr) > 0, CountClosed(tr) > 0, CountOpened(tr) > 1 || CountClosed(tr) > 1)
    decreases |tr|
  {
    if |tr| > 0 {
      PairOfIs(tr[..|tr| - 1]);
    }
  }

  /** The shared promises of one pair of futures. */
  class FuturePair<T> {
    var startProm: Option<T>
    var stopProm: Option<T>
    ghost var threw: bool

    ghost function State(): Pair reads this {
      Pair(startProm.Some?, stopProm.Some?, threw)
    }

    constructor ()
      ensures State() == Pair(false, false, false)
    {
      startProm, stopProm, threw := None, None, false;
    }

    /** The stored callback; `thrown` means that set_value threw and the promise keeps its first value. */
    method StateChange(io: T, starting: bool) returns (thrown: bool)
      modifies this
      ensures State() == OnStateChange(old(State()), starting)
      ensures thrown <==> if starting then old(startProm).Some? else old(stopProm).Some?
      ensures startProm == if starting && old(startProm).None? then Some(io) else old(startProm)
      ensures stopProm == if !starting && old(stopProm).None? then Some(io) else old(stopProm)
    {
      if starting {
        thrown := startProm.Some?;
        if !thrown {
          startProm := Some(io);
        }
      } else {
        thrown := stopProm.Some?;
        if !thrown {
          stopProm := Some(io);
        }
      }
      threw := threw || thrown;
    }
  }
}
