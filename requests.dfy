/** Run requests as they travel from the HTTP handlers through the
    scheduler into one generation runner's inbox, and the pure
    specification of what a runner's drain loop collects. */
module Requests {

  datatype Option<+T> = None | Some(value: T)

  /** Identity of the one-slot completion channel a synchronous caller
      blocks on; every synchronous call makes its own. */
  type ChanId = nat

  /** A RunRequest: the caller's tolerance as a Go time.Duration (in
      nanoseconds) and, for a synchronous caller, the channel to notify
      once the covering run has finished. */
  datatype Request = Request(delay: int, notify: Option<ChanId>)

  /** One second as a time.Duration. */
  const SecondNs: int := 1_000_000_000

  /** The runner treats any request with a negative delay as the close
      marker; the marker is in-band, not a separate variant. */
  predicate IsSentinel(r: Request) {
    r.delay < 0
  }

  /** The close marker the scheduler sends: a delay of minus one second
      and no channel. */
  function Sentinel(): (r: Request)
    ensures IsSentinel(r) && r.notify.None?
  {
    Request(-1 * SecondNs, None)
  }

  /** The marker test looks at the delay alone: a request that carries a
      completion channel is a marker exactly when a channel-less request
      with the same delay is, that is, when the delay is negative. */
  lemma MarkerTestIgnoresChannel(d: int, c: ChanId)
    ensures IsSentinel(Request(d, Some(c))) <==> IsSentinel(Request(d, None))
    ensures IsSentinel(Request(d, Some(c))) <==> d < 0
  {
  }

  predicate NoSentinel(s: seq<Request>) {
    forall i :: 0 <= i < |s| ==> !IsSentinel(s[i])
  }

  /** A closed inbox: the close marker is its last element and its only one. */
  predicate IsClosed(inbox: seq<Request>) {
    |inbox| > 0 && IsSentinel(inbox[|inbox| - 1]) && NoSentinel(inbox[..|inbox| - 1])
  }

  function NotifyOf(r: Request): seq<ChanId> {
    if r.notify.Some? then [r.notify.value] else []
  }

  /** The non-nil completion channels of `s`, in arrival order. */
  function Notifies(s: seq<Request>): seq<ChanId> {
    if s == [] then [] else NotifyOf(s[0]) + Notifies(s[1..])
  }

  /** Position of the first close marker in `inbox`, or |inbox| when it has none. */
  function FirstSentinel(inbox: seq<Request>): (k: nat)
    ensures k <= |inbox|
    ensures forall j :: 0 <= j < k ==> !IsSentinel(inbox[j])
    ensures k < |inbox| ==> IsSentinel(inbox[k])
  {
    if inbox == [] || IsSentinel(inbox[0]) then 0
    else
      1 + FirstSentinel(inbox[1..])
  }

  /** The first marker is the only position with no marker before it. */
  lemma {:induction false} FirstSentinelUnique(inbox: seq<Request>, k: nat)
    requires k <= |inbox|
    requires forall j :: 0 <= j < k ==> !IsSentinel(inbox[j])
    requires k < |inbox| ==> IsSentinel(inbox[k])
    ensures FirstSentinel(inbox) == k
  {
    if k > 0 {
      var tail := inbox[1..];
      forall j | 0 <= j < k - 1 ensures !IsSentinel(tail[j]) {
        assert tail[j] == inbox[j + 1];
      }
      FirstSentinelUnique(tail, k - 1);
    }
  }

  /** No marker comes before the first one. */
  lemma {:induction false} FirstSentinelAtMost(inbox: seq<Request>, i: nat)
    requires i < |inbox| && IsSentinel(inbox[i])
    ensures FirstSentinel(inbox) <= i
  {
    if !IsSentinel(inbox[0]) {
      FirstSentinelAtMost(inbox[1..], i - 1);
    }
  }

  /** What the runner's drain loop leaves in `waiters`: the non-nil
      channels of the requests read before the first close marker. */
  function Waiters(inbox: seq<Request>): (r: seq<ChanId>)
    ensures |r| <= |inbox|
  {
    if inbox == [] || IsSentinel(inbox[0]) then []
    else NotifyOf(inbox[0]) + Waiters(inbox[1..])
  }

  lemma {:induction false} NotifiesLength(s: seq<Request>)
    ensures |Notifies(s)| <= |s|
  {
    if s != [] {
      NotifiesLength(s[1..]);
    }
  }

  /** The drain collects at most one channel per request it reads before
      the first marker. */
  lemma WaitersAtMostRead(inbox: seq<Request>)
    ensures |Waiters(inbox)| <= FirstSentinel(inbox)
  {
    WaitersBeforeSentinel(inbox);
    NotifiesLength(inbox[..FirstSentinel(inbox)]);
  }

  lemma {:induction false} NotifiesAppend(a: seq<Request>, b: seq<Request>)
    ensures Notifies(a + b) == Notifies(a) + Notifies(b)
  {
    if a == [] {
      assert a + b == b;
    } else {
      assert (a + b)[1..] == a[1..] + b;
      NotifiesAppend(a[1..], b);
    }
  }

  /** A channel is among the notifies of `s` exactly when some request of
      `s` carries it. */
  lemma {:induction false} NotifiesMember(s: seq<Request>, c: ChanId)
    ensures c in Notifies(s) <==> exists i :: 0 <= i < |s| && s[i].notify == Some(c)
  {
    if s != [] {
      NotifiesMember(s[1..], c);
      if c in Notifies(s[1..]) {
        var i :| 0 <= i < |s[1..]| && s[1..][i].notify == Some(c);
        assert s[i + 1].notify == Some(c);
      }
      if exists i :: 0 <= i < |s| && s[i].notify == Some(c) {
        var i :| 0 <= i < |s| && s[i].notify == Some(c);
        if i > 0 {
          assert s[1..][i - 1].notify == Some(c);
        }
      }
    }
  }

  /** The recursive drain agrees with the reference definition: the
      waiters are the notifies of the prefix before the first marker. */
  lemma {:induction false} WaitersBeforeSentinel(inbox: seq<Request>)
    ensures Waiters(inbox) == Notifies(inbox[..FirstSentinel(inbox)])
  {
    if inbox == [] || IsSentinel(inbox[0]) {
      assert inbox[..FirstSentinel(inbox)] == [];
    } else {
      WaitersBeforeSentinel(inbox[1..]);
      var k := FirstSentinel(inbox);
      assert inbox[..k] == [inbox[0]] + inbox[1..][..k - 1];
      NotifiesAppend([inbox[0]], inbox[1..][..k - 1]);
      assert Notifies([inbox[0]]) == NotifyOf(inbox[0]) by {
        assert [inbox[0]][1..] == [];
      }
    }
  }

  /** Requests sent after the first close marker are never read: they
      change nothing the runner collects. */
  lemma {:induction false} WaitersIgnoreAfterSentinel(inbox: seq<Request>, rest: seq<Request>)
    requires FirstSentinel(inbox) < |inbox|
    ensures Waiters(inbox + rest) == Waiters(inbox)
  {
    if !IsSentinel(inbox[0]) {
      assert (inbox + rest)[1..] == inbox[1..] + rest;
      WaitersIgnoreAfterSentinel(inbox[1..], rest);
    }
  }

  /** An inbox without a marker: the runner has read every request so far. */
  lemma {:induction false} WaitersOfOpen(inbox: seq<Request>)
    requires NoSentinel(inbox)
    ensures Waiters(inbox) == Notifies(inbox)
  {
    if inbox != [] {
      assert NoSentinel(inbox[1..]) by {
        forall i | 0 <= i < |inbox[1..]| ensures !IsSentinel(inbox[1..][i]) {
          assert inbox[1..][i] == inbox[i + 1];
        }
      }
      WaitersOfOpen(inbox[1..]);
    }
  }

  /** In a closed inbox the drain stops at the last request. */
  lemma ClosedFirstSentinel(inbox: seq<Request>)
    requires IsClosed(inbox)
    ensures FirstSentinel(inbox) == |inbox| - 1
  {
    var n := |inbox| - 1;
    forall j | 0 <= j < n ensures !IsSentinel(inbox[j]) {
      assert inbox[..n][j] == inbox[j];
    }
    FirstSentinelUnique(inbox, n);
  }

  /** A closed inbox: the runner collects every channel forwarded before the marker. */
  lemma WaitersOfClosed(inbox: seq<Request>)
    requires IsClosed(inbox)
    ensures Waiters(inbox) == Notifies(inbox[..|inbox| - 1])
  {
    ClosedFirstSentinel(inbox);
    WaitersBeforeSentinel(inbox);
  }

  /** Each collected channel occurs no more often than it was forwarded. */
  lemma {:induction false} WaitersWithinNotifies(inbox: seq<Request>)
    ensures multiset(Waiters(inbox)) <= multiset(Notifies(inbox))
  {
    if inbox != [] && !IsSentinel(inbox[0]) {
      var head, tail := NotifyOf(inbox[0]), inbox[1..];
      WaitersWithinNotifies(tail);
      assert multiset(Waiters(inbox)) == multiset(head) + multiset(Waiters(tail));
      assert multiset(Notifies(inbox)) == multiset(head) + multiset(Notifies(tail));
    }
  }
}
