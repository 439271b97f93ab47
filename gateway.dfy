/** Request intake: how parseClientArgs turns the `delay` query parameter
    into a time.Duration, and what becomes of a synchronous caller's
    request once it reaches a runner's inbox. */
module Gateway {
  import opened Requests

  const MaxInt64: int := 0x7FFF_FFFF_FFFF_FFFF
  const MinInt64: int := -0x8000_0000_0000_0000
  const Two64: int := 0x1_0000_0000_0000_0000

  /** Two's-complement wrap-around of a signed 64-bit result. */
  function Wrap64(x: int): (r: int)
    ensures MinInt64 <= r <= MaxInt64
    ensures (r - x) % Two64 == 0
    ensures MinInt64 <= x <= MaxInt64 ==> r == x
  {
    (x - MinInt64) % Two64 + MinInt64
  }

  /** parseClientArgs as written. `delay` is the query parameter as
      strconv.Atoi reads it: None when it is missing or not a decimal
      integer, else its value. Atoi rejects values outside int64; the
      product with time.Second wraps around and is never checked for sign. */
  function ParseClientArgs(delay: Option<int>): (r: Option<int>)
    ensures r.Some? <==> delay.Some? && MinInt64 <= delay.value <= MaxInt64
    ensures r.Some? ==> MinInt64 <= r.value <= MaxInt64
    ensures r.Some? ==> (r.value - delay.value * SecondNs) % Two64 == 0
  {
    if delay.None? || delay.value < MinInt64 || MaxInt64 < delay.value then None
    else Some(Wrap64(delay.value * SecondNs))
  }

  /** parseClientArgs with the check the runner's in-band marker needs: a
      delay that is negative, or too large to fit a time.Duration, is a bad
      request like a missing one. */
  function ParseClientArgsChecked(delay: Option<int>): (r: Option<int>)
    ensures r.Some? ==> r.value >= 0
    ensures r.Some? ==> r == ParseClientArgs(delay)
    ensures r.None? <==> delay.None? || delay.value < 0 || MaxInt64 < delay.value * SecondNs
  {
    if delay.None? || delay.value < 0 || MaxInt64 < delay.value * SecondNs then None
    else Some(delay.value * SecondNs)
  }

  /** The parser as written hands out durations that look like the close
      marker: minus one second, and a huge delay that wraps negative. */
  lemma AsWrittenAcceptsMarkerDelays()
    ensures ParseClientArgs(Some(-1)) == Some(-SecondNs)
    ensures ParseClientArgs(Some(9_223_372_037)).Some?
    ensures ParseClientArgs(Some(9_223_372_037)).value < 0
  {
    assert 9_223_372_037 * SecondNs - Two64 == -9_223_372_036_709_551_616;
  }

  /** As written, a synchronous request with a negative parsed delay ends
      the drain of the runner it is forwarded to: the drain stops at that
      request itself (the first conjunct), so the runner starts the action
      although the scheduler has neither sent its marker (the second
      conjunct, which holds because the open inbox has no marker and the
      request carries a channel) nor taken the token for it. */
  lemma AsWrittenRunnerStartsUnclosed(q: seq<Request>, delay: Option<int>, c: ChanId, rest: seq<Request>)
    requires NoSentinel(q)
    requires ParseClientArgs(delay).Some? && ParseClientArgs(delay).value < 0
    ensures var r := Request(ParseClientArgs(delay).value, Some(c));
      FirstSentinel(q + [r] + rest) == |q| && Sentinel() !in q + [r]
  {
    var r := Request(ParseClientArgs(delay).value, Some(c));
    var inbox := q + [r] + rest;
    forall j | 0 <= j < |q| ensures !IsSentinel(inbox[j]) {
      assert inbox[j] == q[j];
    }
    FirstSentinelUnique(inbox, |q|);
  }

  /** As written, a synchronous caller whose parsed delay is negative is
      never signalled: the runner takes its request for the close marker
      and stops collecting there, whatever follows. */
  lemma AsWrittenSyncCallerNeverSignalled(q: seq<Request>, delay: Option<int>, c: ChanId, rest: seq<Request>)
    requires NoSentinel(q) && c !in Notifies(q)
    requires ParseClientArgs(delay).Some? && ParseClientArgs(delay).value < 0
    ensures c !in Waiters(q + [Request(ParseClientArgs(delay).value, Some(c))] + rest)
  {
    var inbox := q + [Request(ParseClientArgs(delay).value, Some(c))] + rest;
    AsWrittenRunnerStartsUnclosed(q, delay, c, rest);
    WaitersBeforeSentinel(inbox);
    assert inbox[..|q|] == q;
  }

  /** With the check, a synchronous caller's request is never taken for
      the marker, and the runner that receives it and then the marker
      collects its channel. */
  lemma CheckedSyncCallerSignalled(q: seq<Request>, delay: Option<int>, c: ChanId, rest: seq<Request>)
    requires NoSentinel(q)
    requires ParseClientArgsChecked(delay).Some?
    ensures !IsSentinel(Request(ParseClientArgsChecked(delay).value, Some(c)))
    ensures c in Waiters(q + [Request(ParseClientArgsChecked(delay).value, Some(c)), Sentinel()] + rest)
  {
    var r := Request(ParseClientArgsChecked(delay).value, Some(c));
    var closed := q + [r, Sentinel()];
    assert closed[..|closed| - 1] == q + [r];
    WaitersIgnoreAfterSentinel(closed, rest) by {
      FirstSentinelAtMost(closed, |closed| - 1);
    }
    WaitersOfClosed(closed);
    NotifiesAppend(q, [r]);
    assert Notifies([r]) == [c] by {
      assert [r][1..] == [];
    }
    assert q + [r, Sentinel()] + rest == closed + rest;
  }
}
