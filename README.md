# Run-coalescing scheduler of bpe, modelled in Dafny

bpe coalesces a storm of "please run the expensive action" requests into
as few executions as possible. Each request carries a delay: how long its
caller is willing to wait. A synchronous caller also passes a one-slot
completion channel and blocks on it until the run that covers its request
has finished.

The core is `manageQueue` and `PuppetRunner` in `bpe.go`:

- **manageQueue** owns the current generation id (`runNum`), the current
  generation's inbox (`queue`) and a one-slot token channel (`readyToRun`).
  It has two phases:
  - **collecting**: every request starts a timer tagged with `runNum`;
  - **closing**: entered when the first timer for `runNum` fires; the
    scheduler then also waits for the token.
  Taking the token sends the close marker to the old inbox, increments
  `runNum` and starts a runner on a fresh inbox.
- **PuppetRunner** drains its inbox up to the marker. The marker is any
  request with a negative delay. While draining, the runner collects the
  non-nil completion channels. It then performs the action, signals every
  collected channel, and hands the token back.

The concurrency is modelled as an environment that picks the next event.
Each event is one method of the `Scheduler` class:

- `OnRequest`: a request arrives;
- `OnTimerFired`: a timer reports its id;
- `OnTokenAcquired`: the scheduler takes the token;
- `OnRunnerFinish`: a runner past its marker finishes.

The timers in flight are a multiset of pending ids. Each generation's
inbox is the sequence of requests sent to it.

Files:

- `requests.dfy`: the request and its in-band marker. It also holds the
  pure specification of the drain (`Waiters`), with an independent
  definition as "the notifies before the first marker".
- `runner.dfy`: `PuppetRunner` as a method. Its drain loop and its
  notification loop are proved against `Waiters`. It produces the trace of
  steps a finishing runner takes.
- `scheduler.dfy`: the `Scheduler` class and its three invariants:
  - the generation-id discipline (`WellFormed`);
  - token conservation (`TokenConserved`);
  - notification accounting (`NotifyAccounted`).
  It also holds single-flight and exactly-once notification as lemmas.
- `gateway.dfy`: `parseClientArgs` as written, and with the check the
  in-band marker needs (see Findings).

Two points of the code shape the model:

- Only requests that carry a completion channel are forwarded to the
  runner, in both phases (bpe.go:118-120, bpe.go:136-138). Asynchronous
  requests only start a timer, and only in the collecting phase
  (bpe.go:121); in the closing phase they have no effect.
- The close marker is any request with a negative delay (bpe.go:77), not
  a separate kind of message. The scheduler's own marker is minus one
  second with no channel (bpe.go:142).

## Model

| member | source | states |
|---|---|---|
| `Requests.Sentinel` | bpe.go:142 | the value the scheduler sends to close a generation is itself a marker and carries no completion channel |
| `Requests.MarkerTestIgnoresChannel` | bpe.go:77 | the runner's marker test looks at the delay alone: a request with a completion channel is a marker exactly when its delay is negative, like any other |
| `Requests.Waiters` | bpe.go:75-85 | what the drain loop collects: at most one channel per request in the inbox; `WaitersBeforeSentinel` gives the exact contents |
| `Requests.WaitersAtMostRead` | bpe.go:76-84 | the runner collects at most one channel per request it reads before the marker |
| `Requests.FirstSentinel` | bpe.go:76-81 | the position where the drain stops: no request before it is a marker, and the request there is one, unless the inbox has none |
| `Requests.FirstSentinelUnique` | bpe.go:76-81 | the drain stops at the only position that is a marker with no marker before it |
| `Requests.FirstSentinelAtMost` | bpe.go:76-81 | the drain stops no later than any marker in the inbox |
| `Requests.WaitersBeforeSentinel` | bpe.go:75-85 | the waiters are exactly the non-nil completion channels of the requests before the first negative-delay request, in arrival order |
| `Requests.NotifiesMember` | bpe.go:82-84 | a channel is among the non-nil notifies of a run of requests iff one of those requests carries it |
| `Requests.WaitersIgnoreAfterSentinel` | bpe.go:76-81 | requests sent after the first marker change nothing the runner collects: they are never read |
| `Requests.WaitersOfOpen` | bpe.go:75-85 | while no marker has arrived, the runner has collected the channel of every request sent so far |
| `Requests.ClosedFirstSentinel` | bpe.go:76-81 | in an inbox closed by one trailing marker the drain stops at its last request |
| `Requests.WaitersOfClosed` | bpe.go:75-85 | an inbox closed by one marker at its end yields the channels of everything forwarded before the marker |
| `Requests.WaitersWithinNotifies` | bpe.go:82-84 | no channel is collected more often than it was forwarded |
| `Runner.Drain` | bpe.go:75-85 | the drain loop leaves `waiters` equal to `Waiters(inbox)` and reports whether a marker was reached |
| `Runner.NotifyWaiters` | bpe.go:91-94 | the notification loop sends one signal to each waiter, in collection order |
| `Runner.PuppetRunner` | bpe.go:70-95 | a runner collects `Waiters(inbox)`; once its marker has arrived it runs the action, then signals every waiter, then returns the token; without a marker it has taken no step |
| `Runner.SignalsCount` | bpe.go:92-94 | each channel is signalled exactly as often as it appears among the waiters |
| `Runner.RunTraceOrder` | bpe.go:72-94 | a finishing runner runs the action once and first, signals each waiter as often as it was collected, and returns the token once and last |
| `Scheduler.DeliveredSetPhase` | bpe.go:91-94 | a runner finishing adds exactly its own waiters to what has been signalled |
| `Scheduler.DeliveredWithinForwarded` | bpe.go:82-94 | no channel is signalled more often than it was forwarded to a generation |
| `Scheduler.DeliveredMember` | bpe.go:91-94 | a channel has been signalled iff some finished runner collected it |
| `Scheduler.CollectedSplit` | bpe.go:91-94 | some runner among the first n + 1 collected a channel iff one among the first n did or runner n did |
| `Scheduler.ExactlyOnce` | bpe.go:91-94 | a channel forwarded at most once is signalled exactly once if a finished runner collected it, and never otherwise |
| `Scheduler.SingleFlight` | bpe.go:25-26 | with the token conserved, two runners past their marker are the same runner, and no runner is past its marker while the token is in `readyToRun` |
| `Scheduler.NotifiedExactlyOnce` | bpe.go:116-146 | in every reachable state a synchronous caller's channel has been signalled once if it was forwarded before the marker to a finished generation, and zero times otherwise |
| `Scheduler.ClosedBeforeAt` | bpe.go:139-146 | while the generation-id discipline holds, every generation before the current one has a closed inbox and a runner past its drain |
| `Scheduler.ClosedBeforeFrame` | bpe.go:139-146 | those earlier generations stay closed under any step that leaves their inboxes alone and moves their runners on only to finished |
| `Scheduler.ForwardWellFormed` | bpe.go:118-120 | forwarding a non-marker request to the current inbox keeps the generation-id discipline |
| `Scheduler.ForwardAccounted` | bpe.go:118-120 | forwarding a fresh channel keeps every channel forwarded at most once and the signals accounted |
| `Scheduler.CloseWellFormed` | bpe.go:139-146 | appending the marker, incrementing the id and installing a fresh inbox keeps the generation-id discipline |
| `Scheduler.CloseAccounted` | bpe.go:142-145 | closing a generation forwards no channel and signals nothing |
| `Scheduler.CloseConservesToken` | bpe.go:139-142 | taking the token while the old runner passes its marker keeps the token count plus the running runners at one |
| `Scheduler.FinishConservesToken` | bpe.go:72 | a finishing runner always finds `readyToRun` empty, and its deferred return keeps the total at one |
| `Scheduler.FinishAccounted` | bpe.go:91-94 | a finishing runner's signals keep what has been signalled equal to what finished runners collected |
| `Scheduler.FinishKeepsInvariants` | bpe.go:70-95 | a runner past its marker belongs to an earlier generation, its inbox is closed with the marker last, it finds `readyToRun` empty, and finishing keeps all three invariants |
| `Scheduler.Scheduler.constructor` | bpe.go:104-111 | the token is seeded, the id starts at 0, and runner 0 starts on an empty inbox with no timer pending |
| `Scheduler.Scheduler.OnRequest` | bpe.go:116-138 | a request goes to the current inbox iff it carries a channel; in the collecting phase it adds exactly one timer tagged with the current id, and in the closing phase none; nothing else changes |
| `Scheduler.Scheduler.Forward` | bpe.go:118-120 | the request is appended to the current inbox and to no other |
| `Scheduler.Scheduler.OnTimerFired` | bpe.go:123-131 | the reported id is consumed from the pending timers; a stale id changes nothing else, and the current id enters the closing phase |
| `Scheduler.Scheduler.OnTokenAcquired` | bpe.go:139-146 | the token is consumed, one marker is appended to the old inbox and its runner starts the action, the id rises by exactly one with a fresh empty inbox and runner, and the scheduler is collecting again |
| `Scheduler.Scheduler.OnRunnerFinish` | bpe.go:70-95 | the finishing runner's inbox is closed, it signals exactly what its drain collected (by `WaitersOfClosed`, the channels forwarded before the marker), returns the token to an empty `readyToRun`, and is done; nothing else changes |
| `Gateway.ParseClientArgs` | bpe.go:62-68 | parseClientArgs as written: Atoi's int64 range check is the only rejection; an accepted delay becomes the product with `time.Second` wrapped to int64, with no sign check |
| `Gateway.ParseClientArgsChecked` | bpe.go:62-68 | the corrected parser accepts only delays that fit a non-negative time.Duration, and agrees with the original wherever it accepts |
| `Gateway.AsWrittenAcceptsMarkerDelays` | bpe.go:62-68 | the original parser turns `delay=-1` into minus one second and `delay=9223372037` into a negative duration through int64 wrap-around |
| `Gateway.AsWrittenRunnerStartsUnclosed` | bpe.go:76-88 | as written, a synchronous request with a negative parsed delay ends the drain of the collecting runner although the scheduler's marker is not in its inbox, so that runner starts the action without the token having been taken for it |
| `Gateway.AsWrittenSyncCallerNeverSignalled` | bpe.go:76-81 | a synchronous request with a negative parsed delay stops the drain where it stands, so its own channel is never collected |
| `Gateway.CheckedSyncCallerSignalled` | bpe.go:48-60 | with the checked parser, a synchronous request is never taken for the marker, and the runner that receives it and then the marker collects its channel |

## Left out

- The HTTP handlers, `main`, the listener and logging (bpe.go:28-60) are
  left out. A synchronous caller is modelled as a request carrying a fresh
  channel id (bpe.go:55).
- Real time is left out. `time.After` (bpe.go:99) is the environment
  choosing `OnTimerFired`. `time.Sleep` (bpe.go:88) is the environment
  choosing `OnRunnerFinish`. The timer's delay value plays no role in the
  scheduler model.
- Goroutine scheduling, channel blocking and `select` fairness are left
  out. Each unbuffered send in manageQueue completes together with the
  runner's receive, as one event. Sending the marker and the runner
  leaving its drain loop are one step of `OnTokenAcquired`.
- Liveness is not modelled: that every request is eventually covered by a
  run, and that every timer eventually reports. Only safety invariants of
  the reachable states are proved.
- `runNum` is a Go `uint64`. Its wrap-around after 2^64 generations is not
  modelled; ids are unbounded naturals.
- `Scheduler.Scheduler.OnRequest` requires two things of a request that
  carries a channel. First, its delay must not be negative. The code does
  not check this, and the Findings row shows what breaks: the caller is
  never signalled, the collecting runner starts the action while the
  previous generation's may still run (single-flight fails), and the
  scheduler's next send to that runner blocks forever (bpe.go:119,
  bpe.go:137, bpe.go:142). `Scheduler.SingleFlight` and the other invariants hold only
  for requests that meet this. Second, its channel must not have been
  forwarded before: each synchronous call makes its own channel
  (bpe.go:55).
- `Scheduler.Scheduler.OnTimerFired` is only enabled in the collecting
  phase. The closing loop's `select` (bpe.go:132-146) does not receive
  from the timer channel, so timers that fire then stay blocked until the
  scheduler is collecting again.
- `Runner.PuppetRunner` records the action as one opaque step. Its
  duration and any failure are not modelled.
- What follows the finding is not modelled in the `Scheduler` class. The
  runner that leaves its drain early runs its action beside the previous
  generation's. The request's own timer (bpe.go:121) fires at once and
  moves the scheduler into the closing phase, and the scheduler's next
  unbuffered send to that runner blocks forever (bpe.go:119, bpe.go:137,
  bpe.go:142). `Gateway.AsWrittenRunnerStartsUnclosed` shows the early
  start: the drain stops at the synchronous request itself.

## Findings

| source | as written | input that shows it | evidently intended | confidence | as-written member | corrected member |
|---|---|---|---|---|---|---|
| bpe.go:62-68 | `parseClientArgs` accepts any int64 delay and multiplies it by `time.Second` with no sign or overflow check. The runner takes any negative `Delay` for the close marker (bpe.go:77). A synchronous request with such a delay ends its generation's drain. Its own channel is never collected or signalled. The runner starts the action although the scheduler never sent it the marker or took the token for it, so two actions can run at once (single-flight fails). The request's own timer (bpe.go:121) fires at once and moves the scheduler into the closing phase; its next send to that runner, a later synchronous request or the marker, then blocks forever (bpe.go:119, bpe.go:137, bpe.go:142). | `GET /sync?delay=-1`; also `GET /sync?delay=9223372037`, whose product wraps to a negative duration | a negative or overflowing delay is rejected as a bad request, so only the scheduler's own marker ends a drain | not executed; high | `Gateway.AsWrittenRunnerStartsUnclosed`, `Gateway.AsWrittenSyncCallerNeverSignalled` | `Gateway.ParseClientArgsChecked`, `Gateway.CheckedSyncCallerSignalled` |
