/** The compare-and-exchange gate and stored callbacks that every net entity has
    (include/net_ip/detail/net_entity_common.hpp). `C` stands for the pair of callbacks. */
module NetEntity {
  import opened Bytes

  /** Error codes, as far as the entities distinguish them. */
  datatype Reason = HandlerStopped | EntityStopped | MessageHandlerTerminated | SystemError

  /** A call of one of the application's callbacks: the state change callback (starting or not) with its handler and
      handler count, or the error callback with the handler if there is one. */
  datatype Callback =
    | Opened(h: nat, count: nat)
    | Closed(h: nat, count: nat)
    | Failed(who: Option<nat>, why: Reason)

  function CountOpened(tr: seq<Callback>): nat {
    if |tr| == 0 then 0 else CountOpened(tr[..|tr| - 1]) + (if tr[|tr| - 1].Opened? then 1 else 0)
  }

  function CountClosed(tr: seq<Callback>): nat {
    if |tr| == 0 then 0 else CountClosed(tr[..|tr| - 1]) + (if tr[|tr| - 1].Closed? then 1 else 0)
  }

  lemma EmitCounts(tr: seq<Callback>, c: Callback)
    ensures CountOpened(tr + [c]) == CountOpened(tr) + (if c.Opened? then 1 else 0)
    ensures CountClosed(tr + [c]) == CountClosed(tr) + (if c.Closed? then 1 else 0)
  {
    assert (tr + [c])[..|tr|] == tr;
  }

  datatype Gate<+C> = Gate(started: bool, callbacks: Option<C>)

  function TryStartGate<C>(g: Gate<C>, cbs: C): (bool, Gate<C>) {
    if g.started then (false, g) else (true, Gate(true, Some(cbs)))
  }

  function TryStopGate<C>(g: Gate<C>): (bool, Gate<C>) {
    (g.started, g.(started := false))
  }

  datatype GateCall<+C> = CallStart(cbs: C) | CallStop

  /** What each call of a sequence returns. */
  function GateRun<C>(g: Gate<C>, calls: seq<GateCall<C>>): (r: seq<bool>)
    ensures |r| == |calls|
    decreases |calls|
  {
    if |calls| == 0 then []
    else
      var (ok, g') := match calls[0] case CallStart(c) => TryStartGate(g, c) case CallStop => TryStopGate(g);
      [ok] + GateRun(g', calls[1..])
  }

  lemma {:induction false} FirstOther<C>(g: Gate<C>, calls: seq<GateCall<C>>, start: bool, j: nat) returns (k: nat)
    requires j < |calls| && g.started == start
    requires GateRun(g, calls)[j] && calls[j].CallStart? == start
    ensures k < j && GateRun(g, calls)[k] && calls[k].CallStart? == !start
    decreases |calls|
  {
    if calls[0].CallStart? != start {
      k := 0;
    } else {
      var (ok, g') := match calls[0] case CallStart(c) => TryStartGate(g, c) case CallStop => TryStopGate(g);
      assert GateRun(g, calls)[1..] == GateRun(g', calls[1..]);
      k := FirstOther(g', calls[1..], start, j - 1);
      k := k + 1;
    }
  }

  /** Of the calls that return true, starts and stops take turns: two in a row are separated by one of the other kind. */
  lemma {:induction false} StartsAndStopsTakeTurns<C>(g: Gate<C>, calls: seq<GateCall<C>>, i: nat, j: nat)
    requires i < j < |calls|
    requires GateRun(g, calls)[i] && GateRun(g, calls)[j] && (calls[i].CallStart? <==> calls[j].CallStart?)
    ensures exists k :: i < k < j && GateRun(g, calls)[k] && (calls[k].CallStart? <==> !calls[i].CallStart?)
    decreases |calls|
  {
    var (ok, g') := match calls[0] case CallStart(c) => TryStartGate(g, c) case CallStop => TryStopGate(g);
    var rest := GateRun(g', calls[1..]);
    assert GateRun(g, calls)[1..] == rest;
    if i > 0 {
      StartsAndStopsTakeTurns(g', calls[1..], i - 1, j - 1);
      var k :| i - 1 < k < j - 1 && rest[k] && (calls[1..][k].CallStart? <==> !calls[1..][i - 1].CallStart?);
      assert GateRun(g, calls)[k + 1] == rest[k];
    } else {
      var k := FirstOther(g', calls[1..], calls[0].CallStart?, j - 1);
      assert GateRun(g, calls)[k + 1] == rest[k];
    }
  }

  function GateEnd<C>(g: Gate<C>, calls: seq<GateCall<C>>): Gate<C>
    decreases |calls|
  {
    if |calls| == 0 then g
    else
      var (_, g') := match calls[0] case CallStart(c) => TryStartGate(g, c) case CallStop => TryStopGate(g);
      GateEnd(g', calls[1..])
  }

  /** The callbacks of the last start that returned true, or else `before`. */
  function LastPassed<C>(calls: seq<GateCall<C>>, results: seq<bool>, before: Option<C>): Option<C>
    requires |results| == |calls|
    decreases |calls|
  {
    if |calls| == 0 then before
    else LastPassed(calls[1..], results[1..], if calls[0].CallStart? && results[0] then Some(calls[0].cbs) else before)
  }

  /** After any calls the stored callbacks are those of the last start that returned true; refused starts and stops
      leave them alone. */
  lemma {:induction false} CallbacksOfLastStart<C>(g: Gate<C>, calls: seq<GateCall<C>>)
    ensures GateEnd(g, calls).callbacks == LastPassed(calls, GateRun(g, calls), g.callbacks)
    decreases |calls|
  {
    if |calls| > 0 {
      var (ok, g') := match calls[0] case CallStart(c) => TryStartGate(g, c) case CallStop => TryStopGate(g);
      assert GateRun(g, calls)[0] == ok && GateRun(g, calls)[1..] == GateRun(g', calls[1..]);
      CallbacksOfLastStart(g', calls[1..]);
    }
  }

  class NetEntityCommon<C> {
    var started: bool
    var callbacks: Option<C>

    ghost function State(): Gate<C> reads this {
      Gate(started, callbacks)
    }

    constructor ()
      ensures State() == Gate(false, None)
    {
      started, callbacks := false, None;
    }

    method Start(cbs: C) returns (ok: bool)
      modifies this
      ensures (ok, State()) == TryStartGate(old(State()), cbs)
      ensures ok <==> !old(started)
      ensures ok ==> started && callbacks == Some(cbs)
      ensures !ok ==> unchanged(this)
    {
      ok := !started;
      if ok {
        started := true;
        callbacks := Some(cbs);
      }
    }

    method Stop() returns (ok: bool)
      modifies this
      ensures (ok, State()) == TryStopGate(old(State()))
      ensures ok <==> old(started)
      ensures !started && callbacks == old(callbacks)
    {
      ok := started;
      if ok {
        started := false;
      }
    }
  }
}
