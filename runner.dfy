/** One generation runner (PuppetRunner): drain the inbox up to the close
    marker collecting completion channels, perform the action, signal
    every collected channel, then hand the capacity token back. */
module Runner {
  import opened Requests

  /** The observable steps a runner takes once its drain loop has ended. */
  datatype Step = ActionRun | Signal(chan: ChanId) | TokenReturned

  function Signals(ws: seq<ChanId>): (r: seq<Step>)
    ensures |r| == |ws|
    ensures forall k :: 0 <= k < |ws| ==> r[k] == Signal(ws[k])
  {
    if ws == [] then [] else [Signal(ws[0])] + Signals(ws[1..])
  }

  /** What a runner with waiters `ws` does after its drain: the action,
      one signal per waiter in collection order, and last the deferred
      token return. */
  function RunTrace(ws: seq<ChanId>): seq<Step> {
    [ActionRun] + Signals(ws) + [TokenReturned]
  }

  /** One iteration of the drain loop: a request that is not the marker
      contributes its channel, if any, ahead of the rest. */
  lemma WaitersStep(inbox: seq<Request>, i: nat)
    requires i < |inbox| && !IsSentinel(inbox[i])
    ensures Waiters(inbox[i..]) == NotifyOf(inbox[i]) + Waiters(inbox[i + 1..])
  {
    assert inbox[i..][1..] == inbox[i + 1..];
  }

  /** The drain loop: read requests until the first close marker,
      appending each non-nil completion channel; `closed` tells whether
      the marker was among the requests sent so far. */
  method Drain(inbox: seq<Request>) returns (waiters: seq<ChanId>, closed: bool)
    ensures waiters == Waiters(inbox)
    ensures closed <==> FirstSentinel(inbox) < |inbox|
  {
    waiters := [];
    var i := 0;
    while i < |inbox| && !IsSentinel(inbox[i])
      invariant i <= |inbox|
      invariant forall j :: 0 <= j < i ==> !IsSentinel(inbox[j])
      invariant Waiters(inbox) == waiters + Waiters(inbox[i..])
    {
      WaitersStep(inbox, i);
      ghost var before, rest := waiters, Waiters(inbox[i + 1..]);
      if inbox[i].notify.Some? {
        waiters := waiters + [inbox[i].notify.value];
      }
      assert before + (NotifyOf(inbox[i]) + rest) == waiters + rest;
      i := i + 1;
    }
    assert Waiters(inbox[i..]) == [];
    closed := i < |inbox|;
    FirstSentinelUnique(inbox, i);
  }

  /** The notification loop: one signal per waiter, in collection order. */
  method NotifyWaiters(waiters: seq<ChanId>) returns (steps: seq<Step>)
    ensures steps == Signals(waiters)
  {
    steps := [];
    var j := 0;
    while j < |waiters|
      invariant j <= |waiters|
      invariant steps == Signals(waiters)[..j]
    {
      assert Signals(waiters)[..j + 1] == Signals(waiters)[..j] + [Signal(waiters[j])];
      steps := steps + [Signal(waiters[j])];
      j := j + 1;
    }
    assert Signals(waiters)[..j] == Signals(waiters);
  }

  /** PuppetRunner over the requests sent to its inbox so far. Without a
      close marker among them the runner is still blocked reading its
      inbox and has taken no step beyond collecting. */
  method PuppetRunner(inbox: seq<Request>) returns (waiters: seq<ChanId>, trace: seq<Step>)
    ensures waiters == Waiters(inbox)
    ensures FirstSentinel(inbox) < |inbox| ==> trace == RunTrace(Waiters(inbox))
    ensures FirstSentinel(inbox) == |inbox| ==> trace == []
  {
    var closed: bool;
    waiters, closed := Drain(inbox);
    trace := [];
    if !closed {
      return;
    }
    // the action itself (an eight-second sleep) completes here
    trace := [ActionRun];
    var signals := NotifyWaiters(waiters);
    // the deferred send on readyToRun comes last
    trace := trace + signals + [TokenReturned];
  }

  lemma {:induction false} SignalsCount(ws: seq<ChanId>, c: ChanId)
    ensures multiset(Signals(ws))[Signal(c)] == multiset(ws)[c]
  {
    if ws != [] {
      var tail := ws[1..];
      assert ws == [ws[0]] + tail;
      assert Signals(ws) == [Signal(ws[0])] + Signals(tail);
      SignalsCount(tail, c);
      assert multiset(Signals(ws)) == multiset{Signal(ws[0])} + multiset(Signals(tail));
      assert multiset(ws) == multiset{ws[0]} + multiset(tail);
    }
  }

  /** A finished runner performs the action once, before anything else;
      signals each collected channel exactly as often as it was collected;
      and returns the token once, as its last step. */
  lemma RunTraceOrder(ws: seq<ChanId>, c: ChanId)
    ensures var t := RunTrace(ws);
      t[0] == ActionRun && multiset(t)[ActionRun] == 1 &&
      t[|t| - 1] == TokenReturned && multiset(t)[TokenReturned] == 1 &&
      multiset(t)[Signal(c)] == multiset(ws)[c]
  {
    var sig := Signals(ws);
    SignalsCount(ws, c);
    assert ActionRun !in sig && TokenReturned !in sig;
    assert multiset(RunTrace(ws)) == multiset{ActionRun} + multiset(sig) + multiset{TokenReturned};
  }
}
