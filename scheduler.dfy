/** The run scheduler (manageQueue): a two-phase event machine over the
    current generation id, the current generation's inbox and the
    one-slot capacity token, driven by an environment that picks the
    next event. */
module Scheduler {
  import opened Requests
  import Runner

  /** Where one generation's runner is: reading its inbox, past its close
      marker and running the action, or finished (waiters signalled and
      token handed back). */
  datatype Phase = Draining | Executing | Done

  /** One for a runner running the action, zero otherwise. */
  function ExecutingCount(p: Phase): nat {
    if p == Executing then 1 else 0
  }

  /** Number of runners past their close marker and not yet finished. */
  function CountExecuting(phases: seq<Phase>): nat {
    if phases == [] then 0
    else CountExecuting(phases[..|phases| - 1]) + ExecutingCount(phases[|phases| - 1])
  }

  /** How many times channel `c` has been forwarded to any generation. */
  function Forwarded(inboxes: seq<seq<Request>>, c: ChanId): nat {
    if inboxes == [] then 0
    else Forwarded(inboxes[..|inboxes| - 1], c) + multiset(Notifies(inboxes[|inboxes| - 1]))[c]
  }

  /** How many times finished runners have signalled channel `c`. */
  function Delivered(inboxes: seq<seq<Request>>, phases: seq<Phase>, c: ChanId): nat
    requires |inboxes| == |phases|
  {
    if inboxes == [] then 0
    else
      var n := |inboxes| - 1;
      Delivered(inboxes[..n], phases[..n], c)
        + (if phases[n] == Done then multiset(Waiters(inboxes[n]))[c] else 0)
  }

  lemma {:induction false} CountSet(phases: seq<Phase>, i: nat, p: Phase)
    requires i < |phases|
    ensures CountExecuting(phases[i := p]) + ExecutingCount(phases[i]) == CountExecuting(phases) + ExecutingCount(p)
  {
    var n := |phases| - 1;
    if i == n {
      assert phases[i := p][..n] == phases[..n];
    } else {
      assert phases[i := p][..n] == phases[..n][i := p];
      CountSet(phases[..n], i, p);
    }
  }

  lemma CountAppend(phases: seq<Phase>, p: Phase)
    ensures CountExecuting(phases + [p]) == CountExecuting(phases) + ExecutingCount(p)
  {
    assert (phases + [p])[..|phases|] == phases;
  }

  /** A runner past its marker is counted. */
  lemma {:induction false} CountPositive(phases: seq<Phase>, i: nat)
    requires i < |phases| && phases[i] == Executing
    ensures CountExecuting(phases) >= 1
  {
    var n := |phases| - 1;
    if i < n {
      CountPositive(phases[..n], i);
    }
  }

  /** Replacing the inbox of a generation that has not finished does not
      change what has been delivered. */
  lemma {:induction false} DeliveredSetInbox(inboxes: seq<seq<Request>>, phases: seq<Phase>, i: nat, x: seq<Request>, c: ChanId)
    requires |inboxes| == |phases| && i < |phases| && phases[i] != Done
    ensures Delivered(inboxes[i := x], phases, c) == Delivered(inboxes, phases, c)
  {
    var n := |inboxes| - 1;
    if i == n {
      assert inboxes[i := x][..n] == inboxes[..n];
    } else {
      assert inboxes[i := x][..n] == inboxes[..n][i := x];
      DeliveredSetInbox(inboxes[..n], phases[..n], i, x, c);
    }
  }

  /** A runner finishing adds exactly its waiters to what has been delivered. */
  lemma {:induction false} DeliveredSetPhase(inboxes: seq<seq<Request>>, phases: seq<Phase>, i: nat, p: Phase, c: ChanId)
    requires |inboxes| == |phases| && i < |phases| && phases[i] != Done
    ensures Delivered(inboxes, phases[i := p], c)
         == Delivered(inboxes, phases, c) + (if p == Done then multiset(Waiters(inboxes[i]))[c] else 0)
  {
    var n := |inboxes| - 1;
    if i == n {
      assert phases[i := p][..n] == phases[..n];
    } else {
      assert phases[i := p][..n] == phases[..n][i := p];
      DeliveredSetPhase(inboxes[..n], phases[..n], i, p, c);
    }
  }

  lemma DeliveredAppend(inboxes: seq<seq<Request>>, phases: seq<Phase>, x: seq<Request>, p: Phase, c: ChanId)
    requires |inboxes| == |phases| && p != Done
    ensures Delivered(inboxes + [x], phases + [p], c) == Delivered(inboxes, phases, c)
  {
    assert (inboxes + [x])[..|inboxes|] == inboxes;
    assert (phases + [p])[..|phases|] == phases;
  }

  lemma {:induction false} ForwardedSet(inboxes: seq<seq<Request>>, i: nat, x: seq<Request>, c: ChanId)
    requires i < |inboxes|
    ensures Forwarded(inboxes[i := x], c) + multiset(Notifies(inboxes[i]))[c]
         == Forwarded(inboxes, c) + multiset(Notifies(x))[c]
  {
    var n := |inboxes| - 1;
    if i == n {
      assert inboxes[i := x][..n] == inboxes[..n];
    } else {
      assert inboxes[i := x][..n] == inboxes[..n][i := x];
      ForwardedSet(inboxes[..n], i, x, c);
    }
  }

  lemma ForwardedAppend(inboxes: seq<seq<Request>>, x: seq<Request>, c: ChanId)
    ensures Forwarded(inboxes + [x], c) == Forwarded(inboxes, c) + multiset(Notifies(x))[c]
  {
    assert (inboxes + [x])[..|inboxes|] == inboxes;
  }

  /** Nothing is delivered more often than it was forwarded. */
  lemma {:induction false} DeliveredWithinForwarded(inboxes: seq<seq<Request>>, phases: seq<Phase>, c: ChanId)
    requires |inboxes| == |phases|
    ensures Delivered(inboxes, phases, c) <= Forwarded(inboxes, c)
  {
    if inboxes != [] {
      var n := |inboxes| - 1;
      DeliveredWithinForwarded(inboxes[..n], phases[..n], c);
      WaitersWithinNotifies(inboxes[n]);
    }
  }

  /** A channel has been delivered exactly when some finished runner collected it. */
  lemma {:induction false} DeliveredMember(inboxes: seq<seq<Request>>, phases: seq<Phase>, c: ChanId)
    requires |inboxes| == |phases|
    ensures Delivered(inboxes, phases, c) > 0 <==> Collected(inboxes, phases, c)
  {
    if inboxes != [] {
      var n := |inboxes| - 1;
      var ins, phs := inboxes[..n], phases[..n];
      DeliveredMember(ins, phs, c);
      var last: seq<ChanId> := Waiters(inboxes[n]);
      assert multiset(last)[c] > 0 <==> c in last;
      CollectedSplit(inboxes, phases, c);
    }
  }

  /** Some finished runner collected `c`. */
  ghost predicate Collected(inboxes: seq<seq<Request>>, phases: seq<Phase>, c: ChanId)
    requires |inboxes| == |phases|
  {
    exists id :: 0 <= id < |phases| && phases[id] == Done && c in Waiters(inboxes[id])
  }

  /** Some runner among the first n + 1 collected `c` iff one among the
      first n did or runner n did. */
  lemma CollectedSplit(inboxes: seq<seq<Request>>, phases: seq<Phase>, c: ChanId)
    requires |inboxes| == |phases| > 0
    ensures var n := |phases| - 1;
      Collected(inboxes, phases, c)
      <==> Collected(inboxes[..n], phases[..n], c) || (phases[n] == Done && c in Waiters(inboxes[n]))
  {
    var n := |phases| - 1;
    var ins, phs := inboxes[..n], phases[..n];
    if Collected(inboxes, phases, c) {
      var id :| 0 <= id < |phases| && phases[id] == Done && c in Waiters(inboxes[id]);
      if id < n {
        assert phs[id] == Done && c in Waiters(ins[id]);
      }
    }
    if Collected(ins, phs, c) {
      var id :| 0 <= id < n && phs[id] == Done && c in Waiters(ins[id]);
      assert phases[id] == Done && c in Waiters(inboxes[id]);
    }
  }

  /** Exactly-once notification: a channel forwarded at most once is
      signalled once if a finished runner collected it and never otherwise. */
  lemma ExactlyOnce(inboxes: seq<seq<Request>>, phases: seq<Phase>, c: ChanId)
    requires |inboxes| == |phases|
    requires Forwarded(inboxes, c) <= 1
    ensures Delivered(inboxes, phases, c) == if Collected(inboxes, phases, c) then 1 else 0
  {
    DeliveredWithinForwarded(inboxes, phases, c);
    DeliveredMember(inboxes, phases, c);
  }

  /** The generation-id discipline: one inbox and one runner per id with
      no gaps, only the current generation collecting, every earlier one
      closed by a single marker at its end, and no timer carrying an id
      not yet allocated. */
  ghost predicate WellFormed(runNum: nat, pending: multiset<nat>, inboxes: seq<seq<Request>>, phases: seq<Phase>) {
    |inboxes| == |phases| == runNum + 1 &&
    phases[runNum] == Draining && NoSentinel(inboxes[runNum]) &&
    ClosedBefore(inboxes, phases, runNum) &&
    (forall t :: t in pending ==> t <= runNum)
  }

  /** Every generation before `n` has been closed by a single marker at
      the end of its inbox, and its runner has left the drain loop. */
  ghost predicate ClosedBefore(inboxes: seq<seq<Request>>, phases: seq<Phase>, n: nat)
    requires n <= |inboxes| && n <= |phases|
  {
    n == 0 || (ClosedBefore(inboxes, phases, n - 1) && phases[n - 1] != Draining && IsClosed(inboxes[n - 1]))
  }

  lemma {:induction false} ClosedBeforeAt(inboxes: seq<seq<Request>>, phases: seq<Phase>, n: nat, id: nat)
    requires n <= |inboxes| && n <= |phases| && ClosedBefore(inboxes, phases, n)
    requires id < n
    ensures phases[id] != Draining && IsClosed(inboxes[id])
  {
    if id < n - 1 {
      ClosedBeforeAt(inboxes, phases, n - 1, id);
    }
  }

  /** Closedness of the earlier generations survives any change that
      leaves their inboxes alone and moves their runners on, if at all,
      only to Done. */
  lemma {:induction false} ClosedBeforeFrame(inboxes: seq<seq<Request>>, phases: seq<Phase>,
                                             inboxes': seq<seq<Request>>, phases': seq<Phase>, n: nat)
    requires n <= |inboxes| && n <= |phases| && ClosedBefore(inboxes, phases, n)
    requires n <= |inboxes'| && n <= |phases'|
    requires forall id :: 0 <= id < n ==> inboxes'[id] == inboxes[id]
    requires forall id :: 0 <= id < n ==> phases'[id] == phases[id] || phases'[id] == Done
    ensures ClosedBefore(inboxes', phases', n)
  {
    if n > 0 {
      ClosedBeforeFrame(inboxes, phases, inboxes', phases', n - 1);
    }
  }

  /** Token conservation: the token in readyToRun plus the runners past
      their marker and not yet finished is always exactly one. */
  ghost predicate TokenConserved(token: bool, phases: seq<Phase>) {
    (if token then 1 else 0) + CountExecuting(phases) == 1
  }

  /** Every completion channel is forwarded at most once, and it has been
      signalled once per finished runner that collected it. */
  ghost predicate NotifyAccounted(inboxes: seq<seq<Request>>, phases: seq<Phase>, signalled: multiset<ChanId>) {
    |inboxes| == |phases| &&
    (forall c :: Forwarded(inboxes, c) <= 1) &&
    (forall c {:trigger Delivered(inboxes, phases, c)} :: signalled[c] == Delivered(inboxes, phases, c))
  }

  /** Single-flight: while the token is conserved, no two different
      runners are running the action at once, and none runs while the
      token sits in readyToRun. */
  lemma SingleFlight(token: bool, phases: seq<Phase>, i: nat, j: nat)
    requires TokenConserved(token, phases)
    requires i < |phases| && j < |phases|
    requires phases[i] == Executing && phases[j] == Executing
    ensures i == j && !token
  {
    CountPositive(phases, i);
    CountSet(phases, i, Done);
    if i != j {
      CountPositive(phases[i := Done], j);
    }
  }

  /** Exactly-once notification for the whole system: a completion channel
      has been signalled once if it was forwarded, before the marker, to a
      generation whose runner has finished, and never otherwise. */
  lemma NotifiedExactlyOnce(runNum: nat, pending: multiset<nat>, inboxes: seq<seq<Request>>,
                            phases: seq<Phase>, signalled: multiset<ChanId>, c: ChanId)
    requires WellFormed(runNum, pending, inboxes, phases)
    requires NotifyAccounted(inboxes, phases, signalled)
    ensures forall id :: 0 <= id < runNum ==> |inboxes[id]| > 0 && IsClosed(inboxes[id])
    ensures signalled[c] ==
      if exists id :: 0 <= id < runNum && phases[id] == Done && c in Notifies(inboxes[id][..|inboxes[id]| - 1])
      then 1 else 0
  {
    ExactlyOnce(inboxes, phases, c);
    forall id | 0 <= id < runNum ensures IsClosed(inboxes[id]) {
      ClosedBeforeAt(inboxes, phases, runNum, id);
    }
    forall id | 0 <= id < runNum
    {
      WaitersOfClosed(inboxes[id]);
    }
  }

  /** Forwarding a request to the collecting generation keeps the id discipline. */
  lemma ForwardWellFormed(runNum: nat, pending: multiset<nat>, inboxes: seq<seq<Request>>, phases: seq<Phase>, r: Request)
    requires WellFormed(runNum, pending, inboxes, phases) && !IsSentinel(r)
    ensures WellFormed(runNum, pending, inboxes[runNum := inboxes[runNum] + [r]], phases)
  {
    var inboxes' := inboxes[runNum := inboxes[runNum] + [r]];
    ClosedBeforeFrame(inboxes, phases, inboxes', phases, runNum);
  }

  /** Forwarding a fresh channel to the collecting generation keeps the accounting. */
  lemma ForwardAccounted(inboxes: seq<seq<Request>>, phases: seq<Phase>, signalled: multiset<ChanId>, i: nat, r: Request)
    requires NotifyAccounted(inboxes, phases, signalled)
    requires i < |inboxes| && phases[i] != Done
    requires r.notify.Some? && Forwarded(inboxes, r.notify.value) == 0
    ensures NotifyAccounted(inboxes[i := inboxes[i] + [r]], phases, signalled)
  {
    var q := inboxes[i] + [r];
    var inboxes' := inboxes[i := q];
    NotifiesAppend(inboxes[i], [r]);
    assert Notifies([r]) == [r.notify.value] by {
      assert [r][1..] == [];
    }
    forall c ensures Forwarded(inboxes', c) <= 1 {
      ForwardedSet(inboxes, i, q, c);
    }
    forall c ensures signalled[c] == Delivered(inboxes', phases, c) {
      DeliveredSetInbox(inboxes, phases, i, q, c);
    }
  }

  /** Closing the current generation and opening the next keeps the id discipline. */
  lemma CloseWellFormed(runNum: nat, pending: multiset<nat>, inboxes: seq<seq<Request>>, phases: seq<Phase>)
    requires WellFormed(runNum, pending, inboxes, phases)
    ensures WellFormed(runNum + 1, pending,
                       inboxes[runNum := inboxes[runNum] + [Sentinel()]] + [[]],
                       phases[runNum := Executing] + [Draining])
  {
    var closed := inboxes[runNum] + [Sentinel()];
    assert closed[..|closed| - 1] == inboxes[runNum];
    var inboxes', phases' := inboxes[runNum := closed] + [[]], phases[runNum := Executing] + [Draining];
    ClosedBeforeFrame(inboxes, phases, inboxes', phases', runNum);
  }

  /** Appending the marker and a fresh empty inbox keeps the accounting. */
  lemma CloseAccounted(inboxes: seq<seq<Request>>, phases: seq<Phase>, signalled: multiset<ChanId>, i: nat)
    requires NotifyAccounted(inboxes, phases, signalled)
    requires i < |inboxes| && phases[i] == Draining
    ensures NotifyAccounted(inboxes[i := inboxes[i] + [Sentinel()]] + [[]],
                            phases[i := Executing] + [Draining], signalled)
  {
    var closed := inboxes[i] + [Sentinel()];
    var marked := inboxes[i := closed];
    var started := phases[i := Executing];
    NotifiesAppend(inboxes[i], [Sentinel()]);
    assert Notifies([Sentinel()]) == [] by {
      assert [Sentinel()][1..] == [];
    }
    forall c ensures Forwarded(marked + [[]], c) == Forwarded(inboxes, c) {
      ForwardedSet(inboxes, i, closed, c);
      ForwardedAppend(marked, [], c);
    }
    forall c ensures Delivered(marked + [[]], started + [Draining], c) == Delivered(inboxes, phases, c) {
      DeliveredSetInbox(inboxes, phases, i, closed, c);
      DeliveredSetPhase(marked, phases, i, Executing, c);
      DeliveredAppend(marked, started, [], Draining, c);
    }
  }

  /** Taking the token to close a collecting generation conserves it. */
  lemma CloseConservesToken(phases: seq<Phase>, i: nat)
    requires TokenConserved(true, phases) && i < |phases| && phases[i] == Draining
    ensures TokenConserved(false, phases[i := Executing] + [Draining])
  {
    CountSet(phases, i, Executing);
    CountAppend(phases[i := Executing], Draining);
  }

  /** A finishing runner finds the token absent and its return conserves it. */
  lemma FinishConservesToken(token: bool, phases: seq<Phase>, i: nat)
    requires TokenConserved(token, phases) && i < |phases| && phases[i] == Executing
    ensures !token && TokenConserved(true, phases[i := Done])
  {
    CountPositive(phases, i);
    CountSet(phases, i, Done);
  }

  /** A finishing runner's signals keep the accounting. */
  lemma FinishAccounted(inboxes: seq<seq<Request>>, phases: seq<Phase>, signalled: multiset<ChanId>, i: nat)
    requires NotifyAccounted(inboxes, phases, signalled)
    requires i < |inboxes| && phases[i] == Executing
    ensures NotifyAccounted(inboxes, phases[i := Done], signalled + multiset(Waiters(inboxes[i])))
  {
    forall c ensures (signalled + multiset(Waiters(inboxes[i])))[c] == Delivered(inboxes, phases[i := Done], c) {
      DeliveredSetPhase(inboxes, phases, i, Done, c);
    }
  }

  /** A runner finishing keeps all three invariants: it is an old
      generation's runner, its inbox is closed with the marker last, it
      finds readyToRun empty, and it signals exactly what it collected. */
  lemma FinishKeepsInvariants(runNum: nat, pending: multiset<nat>, inboxes: seq<seq<Request>>,
                              phases: seq<Phase>, token: bool, signalled: multiset<ChanId>, i: nat)
    requires WellFormed(runNum, pending, inboxes, phases)
    requires TokenConserved(token, phases) && NotifyAccounted(inboxes, phases, signalled)
    requires i < |phases| && phases[i] == Executing
    ensures !token && i < runNum && IsClosed(inboxes[i])
    ensures FirstSentinel(inboxes[i]) == |inboxes[i]| - 1
    ensures WellFormed(runNum, pending, inboxes, phases[i := Done])
    ensures TokenConserved(true, phases[i := Done])
    ensures NotifyAccounted(inboxes, phases[i := Done], signalled + multiset(Waiters(inboxes[i])))
  {
    FinishConservesToken(token, phases, i);
    FinishAccounted(inboxes, phases, signalled, i);
    ClosedBeforeAt(inboxes, phases, runNum, i);
    ClosedBeforeFrame(inboxes, phases, inboxes, phases[i := Done], runNum);
    ClosedFirstSentinel(inboxes[i]);
  }

  class Scheduler {
    /** Id of the generation currently receiving requests. */
    var runNum: nat
    /** True in the closing phase: a deadline for runNum has fired and the
        scheduler now also waits for the token. */
    var closing: bool
    /** Whether the one-slot readyToRun channel holds the token. */
    var token: bool
    /** Ids carried by timer tasks that have not yet reported. */
    var pending: multiset<nat>
    /** Each generation's inbox, indexed by its id; inboxes[runNum] is `queue`. */
    var inboxes: seq<seq<Request>>
    /** Each generation's runner, indexed by its id. */
    var phases: seq<Phase>
    /** The completion channels that have been sent `true`, with multiplicity. */
    var signalled: multiset<ChanId>

    ghost predicate Valid()
      reads this
    {
      WellFormed(runNum, pending, inboxes, phases) &&
      TokenConserved(token, phases) &&
      NotifyAccounted(inboxes, phases, signalled)
    }

    /** The inbox of the generation currently collecting. */
    function Queue(): seq<Request>
      reads this
      requires Valid()
    {
      inboxes[runNum]
    }

    /** Seed the token, then start generation 0 with an empty inbox. */
    constructor ()
      ensures Valid()
      ensures runNum == 0 && !closing && token && pending == multiset{}
      ensures inboxes == [[]] && phases == [Draining] && signalled == multiset{}
    {
      token := true;
      pending := multiset{};
      runNum := 0;
      inboxes := [[]];
      phases := [Draining];
      closing := false;
      signalled := multiset{};
      new;
      assert inboxes[..0] == [] && phases[..0] == [];
      forall c ensures signalled[c] == Delivered(inboxes, phases, c) {
        assert Delivered(inboxes[..0], phases[..0], c) == 0;
      }
    }

    /** A request arrives from a handler. It is forwarded to the current
        inbox only when it carries a completion channel; in the collecting
        phase it also starts a timer tagged with the current id. */
    method OnRequest(r: Request)
      requires Valid()
      requires r.notify.Some? ==> !IsSentinel(r) && Forwarded(inboxes, r.notify.value) == 0
      modifies this
      ensures Valid()
      ensures runNum == old(runNum) && closing == old(closing) && token == old(token)
      ensures phases == old(phases) && signalled == old(signalled)
      ensures inboxes == old(inboxes)[runNum := if r.notify.Some? then old(Queue()) + [r] else old(Queue())]
      ensures pending == if closing then old(pending) else old(pending) + multiset{runNum}
    {
      if !closing {
        if r.notify.Some? {
          Forward(r);
        }
        pending := pending + multiset{runNum};
      } else {
        if r.notify.Some? {
          Forward(r);
        }
      }
    }

    /** Send a request carrying a completion channel to the current inbox. */
    method Forward(r: Request)
      requires Valid()
      requires r.notify.Some? && !IsSentinel(r) && Forwarded(inboxes, r.notify.value) == 0
      modifies this`inboxes
      ensures Valid()
      ensures inboxes == old(inboxes)[runNum := old(Queue()) + [r]]
    {
      ForwardWellFormed(runNum, pending, inboxes, phases, r);
      ForwardAccounted(inboxes, phases, signalled, runNum, r);
      inboxes := inboxes[runNum := inboxes[runNum] + [r]];
    }

    /** A timer reports its id. A stale id is drained and changes nothing
        else; the current id moves the scheduler into the closing phase. */
    method OnTimerFired(t: nat)
      requires Valid() && !closing && t in pending
      modifies this
      ensures Valid()
      ensures pending == old(pending) - multiset{t}
      ensures closing <==> t == runNum
      ensures runNum == old(runNum) && token == old(token)
      ensures inboxes == old(inboxes) && phases == old(phases) && signalled == old(signalled)
    {
      pending := pending - multiset{t};
      if t != runNum {
        return;
      }
      closing := true;
    }

    /** The token is taken in the closing phase: the old inbox gets its
        close marker (its runner starts the action), the id advances by
        one, a fresh inbox with a new runner is installed, and the
        scheduler is back in the collecting phase. */
    method OnTokenAcquired()
      requires Valid() && closing && token
      modifies this
      ensures Valid()
      ensures !closing && !token
      ensures runNum == old(runNum) + 1
      ensures inboxes == old(inboxes)[old(runNum) := old(Queue()) + [Sentinel()]] + [[]]
      ensures phases == old(phases)[old(runNum) := Executing] + [Draining]
      ensures pending == old(pending) && signalled == old(signalled)
    {
      CloseWellFormed(runNum, pending, inboxes, phases);
      CloseAccounted(inboxes, phases, signalled, runNum);
      CloseConservesToken(phases, runNum);
      token := false;
      inboxes := inboxes[runNum := inboxes[runNum] + [Sentinel()]];
      phases := phases[runNum := Executing];
      inboxes := inboxes + [[]];
      runNum := runNum + 1;
      phases := phases + [Draining];
      closing := false;
    }

    /** A runner past its marker finishes: the action has completed, every
        waiter it collected is signalled, and it hands the token back,
        which never finds the one-slot buffer already full. */
    method OnRunnerFinish(id: nat)
      requires Valid() && id < |phases| && phases[id] == Executing
      modifies this
      ensures Valid()
      ensures !old(token) && token
      ensures phases == old(phases)[id := Done]
      ensures IsClosed(inboxes[id])
      ensures signalled == old(signalled) + multiset(Waiters(inboxes[id]))
      ensures runNum == old(runNum) && closing == old(closing)
      ensures pending == old(pending) && inboxes == old(inboxes)
    {
      FinishKeepsInvariants(runNum, pending, inboxes, phases, token, signalled, id);
      var waiters, trace := Runner.PuppetRunner(inboxes[id]);
      assert trace == Runner.RunTrace(waiters);
      signalled := signalled + multiset(waiters);
      phases := phases[id := Done];
      token := true;
    }
  }
}
