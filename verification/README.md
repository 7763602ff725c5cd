# GoAuction, modelled and verified

GoAuction runs auctions in which people bid until a closing time that last-moment bids push back. A Go
service keeps the lots in PostgreSQL; a browser port runs the same rules on its own store. This project
models both, and the rate limiter in front of the service, in Dafny 4.11, and proves what they promise.
`dafny verify dfyconfig.toml` checks it.

## What is modelled

| files | subject |
|---|---|
| `Money`, `Auction` | Amounts, columns that round to cents, and the auction run one operation at a time: the reference every other model is compared with. |
| `Protocol`, `Invariant`, `Steps`, `Safety`, `Answers` | Any number of `PlaceBid` and `CloseLot` calls on one lot, from any number of processes, interleaved statement by statement: read, check, insert, sniping check, update, commit, events. Every theorem but `LockedBidsNeverConflict` holds with only the version check as well as with the row lock of `SELECT ... FOR UPDATE`, which is the flag `rowLock`. |
| `Restart`, `Timers`, `Wakeup`, `Liveness`, `Stranding` | The timers of one process over that protocol, with crashes, restarts and database errors at any moment. `scheduleClose` is two steps: creating the timer, which may go off from then on, and registering it under the mutex. |
| `Tables`, `GoCalls`, `Alarms`, `GoEngine` | The Go objects: a repository whose tables are changed in place, with transactions, and an engine with its retry loop, timers, counters and events, against an environment that commits anything it likes between any two statements and a database that may fail at any of them. |
| `GoService` | The handlers' calls on those objects, one request at a time and undisturbed. |
| `TokenBucket`, `BucketGc`, `RateLimiter` | The token bucket per client address: the meaning of an answer over whole runs, the collector of idle buckets, and the limiter with its two maps. |
| `Port`, `PortTimers`, `PortAgreement`, `Browser` | The browser port: lots, one array of bids for all lots, capped timers and queued microtasks, as values and as objects changed in place; and its agreement with the service. |
| `Statistics` | The user statistics, of each user and summed over all. |

The two descriptions of a Go call serve different ends. `Protocol` interleaves any number of calls and is
where safety is proved. `GoEngine` follows one call through the program's own loop and branches and ties it
to `GoCalls`. There a call is shown to be one step of the reference auction after what the others committed,
or an error that the rules, the database or three conflicts explain (`GoCalls.PlaceIsAtomic`,
`GoCalls.RefusalIsTheRules`, `GoCalls.ExhaustedMeansOvertaken`). Both use the rules of `Auction`. The service
that the port is compared with is `GoEngine` itself, run undisturbed (`GoService.Handle`).

## What is assumed

- Amounts are exact reals, counted in cents. A decimal column rounds by any monotone rounding that fixes
  whole cents (PostgreSQL's is one: `Money.HalfAwayFromZeroIsRounding`) and refuses what exceeds its largest
  value, which for `DECIMAL(12,2)` is 10^12 - 1 cents.
- The stored start price and step are values of the column and the stored step is positive, so at least one
  cent. The handler asks only for a positive step before rounding; `Auction.StoredStepKeepsBidsApart` shows
  that the stored step being positive is exactly what keeps bids apart.
- Timing theorems ask for an extension at least as long as a positive window; the defaults are equal.
- A call's own clock readings run forward; readings of different calls are unrelated, except in the timer
  layers, where one clock runs forward for all.
- The limiter has a burst of at least one, a rate and an idle time that are not negative, and a clock that
  runs forward.
- New ids are new, bidders are registered users, and rows hold values of their columns.

## What the proofs found

- **Length of an auction.** "At most the original closing time plus one extension for each one granted" is
  false of the code. The check against `ClosingAt` and the reading from which the new closing time is
  counted are two readings of the clock; a bid checked in time may be extended from a later moment
  (`Auction.LateBidOvershoots`). If a call may take some time between the two, the bound holds of all
  histories exactly when that time is zero (`Auction.PlainBoundExactlyWhen`). The bound that always holds adds
  the time such calls took (`Auction.LengthIsBounded`).
- **Stranded lots.** Three races, two errors and a late restart can leave a lot active for ever, with every
  bid refused as late. A bid transaction may take longer than the window: it commits without extending,
  after a closer has read the row, and the closer's conflict is only logged
  (`Stranding.SlowTransactionStrands`). A timer may go off before `scheduleClose` has registered it: the
  late registration then stops the timer its own closer had armed (`Stranding.SlowRegistrationStrands`). If
  the extension is longer than the window, a closer may come early, read the row, be overtaken by a bid that
  extends nothing, and find the lot due only then (`Stranding.SlowReadStrands`). `closeLotByID` only logs
  an error of the database (`Stranding.FailedCloserStrands`), and so does start-up when the query for active
  lots fails (`Stranding.FailedLoadStrands`). With an extension no shorter than the window these, and the
  late restart below, are all there is (`Stranding.WakeUpsExactlyWhen`). With the default
  settings, where window and extension are equal, a closer may read as slowly as it likes. The service
  cancels requests after 30 seconds (cmd/goauction/main.go:73), which is also the default window: there a
  bid transaction outlasts the window only if its commit is still under way at that deadline; with a shorter
  window nothing else prevents it.
- **The retry loop.** With `FOR UPDATE` a bid never meets a version conflict, so the retries are never used
  (`Safety.LockedBidsNeverConflict`); without it they can all be lost to rivals
  (`GoCalls.UnlockedCallsCanExhaust`).
- **The collector.** It can be noticed exactly when a bucket takes longer to refill than it must be idle
  (`BucketGc.GcInvisibleExactlyWhen`). The default settings are on the safe side.
- **The port.** It and the service give the same answers and hold the same tables all along a run exactly
  when each accepted request has whole cents and a title without blanks around it, which the columns can
  hold, and each creation the port refuses is refused by the service too
  (`PortAgreement.PortAgreesExactlyWhen`). The service's handler accepts a creation that the port refuses in
  two cases: a lot that closes at that very moment, and a title of blanks only
  (`PortAgreement.CreateChecksDiffer`, `PortAgreement.BlankTitleDiffers`). A title with blanks around it
  both accept, and only the port trims (`PortAgreement.PaddedTitleDiffers`).
- **Restart.** The service's own README promises that timers are restored on restart (README.md:27). The query
  at internal/repository/postgres.go:126-130 leaves out lots that expired while the process was down. A restart
  leaves an active lot with somebody to close it exactly when it comes before the closing time and its query
  succeeds; when it comes after, the lot stays active for ever (`Wakeup.RestartGuardsExactlyWhen`,
  `Wakeup.StrandedForEver`). The port's `restoreTimers` does include such lots (`PortTimers.StartUpSettles`).

## Model

| member | source | states |
|---|---|---|
| Money.StoredKeepsStep | migrations/001_create_lots_table.up.sql:4-6 | An amount at least one stored step above a stored price is stored at least one step above it, whatever the rounding to cents. |
| Money.HalfAwayFromZeroIsRounding | migrations/002_create_bids_table.up.sql:5 | PostgreSQL's rounding to the nearest cent is monotone and fixes whole cents. |
| Money.HalfAwayFromZeroIsNearest | migrations/002_create_bids_table.up.sql:5 | It gives a nearest cent, and of two equally near the one away from zero. |
| Auction.ReplayConcat | internal/auction/engine.go:82-119 | Replaying one history after another is replaying their concatenation. |
| Auction.AcceptedExactlyWhen | internal/auction/engine.go:87-102 | After every history a bid is accepted if and only if the lot is active, the reading is not after its closing time, the amount is more than the price and at least price plus step, and the column can hold it; a close if and only if the lot is active and due and the winner is a highest bid or there is none. |
| Auction.OperationsFollowRules | internal/auction/engine.go:104-113 | What each operation of a history does to every field of the row: a bid sets price and version, and closing time and extension count exactly when at most a window was left; a close sets status, version and winner; nothing else changes. |
| Auction.ExtensionsAreLateBids | internal/auction/engine.go:109-113 | After every history the extension count is the number of bids that met a lot with at most a window left, and the closing time is the reading of the last of these plus one extension, or the original one. |
| Auction.Accounting | internal/auction/engine.go:93-116 | After every accepted history the version is one more than the operations, which are the bids and perhaps a close; the price is the last bid or the start price; there are no more extensions than bids; an active lot has no winner. |
| Auction.Climbing | internal/auction/engine.go:93-107 | Each stored bid is at least one step above the one before it, and the price at least the start price plus one step a bid, after rounding. |
| Auction.StoredStepKeepsBidsApart | internal/api/handlers.go:41 | On cents, every bid that passes the checks raises the stored price if and only if the stored step is positive; a step that rounds to zero allows ties. |
| Auction.HighestIsLast | internal/repository/postgres.go:170-179 | When bids climb, "order by amount, first row" has exactly one possible answer, the last bid. |
| Auction.ClosedHasRightWinner | internal/auction/engine.go:163-175 | A closed lot has no bids, no winner and its start price, or the bidder of the one highest bid and that bid's amount. |
| Auction.OnlyTheLastCloses | internal/auction/engine.go:156-175 | An operation of a history is a close if and only if it is the last one and the lot is closed. |
| Auction.ExtensionCoversWindow | internal/auction/engine.go:109-113 | No accepted bid makes the closing time earlier if and only if the window is off or the extension is at least as long. |
| Auction.ClosingNeverDecreases | internal/auction/engine.go:109-113 | Along every history the closing time never gets earlier, and it stays the same where no extension is counted. |
| Auction.ClosesAWindowAfterEveryBid | internal/auction/engine.go:90-113 | After every accepted bid at least a window is left, now and later, and the reading that closes the lot is a window after that of each bid. |
| Auction.LengthIsBounded | internal/auction/engine.go:109-113 | The closing time is at most the original one, plus one extension for each granted, plus the time calls took between their two readings. |
| Auction.PlainBoundExactlyWhen | internal/auction/engine.go:90-113 | Without that last term the bound holds of all histories whose bids take at most a given time between the check and the new closing time if and only if that time is zero. |
| Auction.PunctualLength | internal/auction/engine.go:90-113 | It holds of every history in which no call sets a new closing time after the old one has passed. |
| Auction.LateBidOvershoots | internal/auction/engine.go:90-110 | A single bid checked in time and set late exceeds the plain bound by exactly its lateness. |
| Auction.BidsAreBounded | migrations/001_create_lots_table.up.sql:4-6 | Start price plus one step a bid fits the price column, which bounds the number of bids and so of extensions. |
| Steps.CommitBidKeeps | internal/auction/engine.go:106-118 | The commit of a bid keeps the invariant of all calls in flight, those that hold older versions included. |
| Steps.CommitCloseKeeps | internal/auction/engine.go:163-175 | So does the versioned update of a closer, although it read lot and highest bid outside a transaction. |
| Steps.StepKeeps | internal/auction/engine.go:80-186 | Every step of every call keeps the invariant. |
| Steps.RunKeeps | internal/auction/engine.go:80-186 | Every interleaving keeps the invariant. |
| Safety.Serializable | internal/auction/engine.go:80-127 | In every reachable state, replaying the committed operations one at a time in version order gives the row, the bid table and the answer of every call, at a point of the history no earlier than the call's start. |
| Safety.CallIsServed | internal/auction/engine.go:86-126 | A call's acceptance or refusal is the sequential auction's own answer at a version of the lot that was current since the call began. |
| Safety.WinnerIsRight | internal/auction/engine.go:154-175 | Whatever interleaves with it, a closed lot holds the bidder of the one highest committed bid and its amount, or no winner and the start price. |
| Safety.BooksBalance | internal/auction/engine.go:93-116 | Version, price, step distance and extension count agree with the bid table in every reachable state. |
| Safety.ClosingIsFinal | internal/auction/engine.go:87-89 | Once a lot is closed no step of any call changes its row, its bids or its history. |
| Safety.ClosedIsAnnouncedOnce | internal/auction/engine.go:176-184 | At most one `lot_closed` event is ever sent, and it carries the stored winner and price. |
| Safety.AllOrNothing | internal/auction/engine.go:80-151 | A call that succeeded committed exactly one bid, which its answer and its events describe; one that failed committed none and sent nothing. |
| Safety.BidRows | internal/repository/postgres.go:164-168 | The bid table holds one row for each accepted bid, in the order of commit. |
| Answers.AcceptanceMeans | internal/auction/engine.go:87-149 | In every interleaving an accepted bid passed the checks on a version that was current while its call ran; the returned lot differs from that version by this one bid, in every field, and the events are `new_bid` and, exactly when at most a window was left, `lot_extended` with the new closing time and one extension more. |
| Answers.RefusalMeans | internal/auction/engine.go:87-102 | In every interleaving each error of the rules is given for its own reason, the earlier checks having passed, on a version that was current while the call ran. |
| Answers.FailuresAreReported | internal/auction/engine.go:124-126 | In every run a call ends with a database error if and only if it met one. |
| Answers.ExtensionsAreCounted | internal/auction/engine.go:109-113 | In every reachable state the extension count is the number of committed bids that met a lot with at most a window left, the last of which set the closing time. |
| Answers.CloserTells | internal/auction/engine.go:176-184 | A closer that has finished has sent one `lot_closed` with the winner and price of the row if it closed the lot, and nothing otherwise. |
| Answers.ClosedIsAnnounced | internal/auction/engine.go:179-184 | With no call in flight a closed lot has been announced. |
| Answers.ThreeAttempts | internal/auction/engine.go:80-151 | In every run a bid opens at most three transactions, and gives up only after the third. |
| Safety.CallsAreBounded | internal/auction/engine.go:80-151 | No call takes more than 20 steps in any run, retries included, whatever the other calls do. |
| Safety.NoDeadlock | internal/repository/postgres.go:76-90 | An unfinished call can take a step, or the holder of the row lock it waits for can. |
| Safety.LockedBidsNeverConflict | internal/repository/postgres.go:100-108 | With the row lock a bid's update finds the row exactly as it was read; no bid is retried and none runs out of attempts. |
| Safety.ClosingTimeMovesForward | internal/auction/engine.go:109-113 | From every reachable state on, in every interleaving, the closing time never gets earlier. |
| Safety.NoSniping | internal/auction/engine.go:109-113 | In every interleaving the clock reading on which a lot was closed is a full window after that of every accepted bid. |
| Safety.AuctionsEnd | internal/auction/engine.go:93-113 | In every interleaving the closing time is bounded by one extension a bid plus the lateness of calls, and the number of bids by the room in the price column. |
| Safety.MetricsSettle | internal/auction/engine.go:176-177 | With no call in flight the gauge is 1 for an active lot and 0 for a closed one, and the closures counter is the rest. |
| Wakeup.CommitSparesWatchers | internal/auction/engine.go:109-116 | A bid that outdates a closer either extends the lot, and then arms a timer, or was early enough for somebody else to be still watching. |
| Wakeup.WatcherSteps | internal/auction/engine.go:154-175 | Whoever watches an active lot goes on watching with each step of its own, or closes the lot. |
| Wakeup.MoveKeepsAwake | internal/auction/engine.go:192-234 | Every move of calls, timers and the registration mutex keeps the lot watched. |
| Wakeup.NeverStranded | internal/auction/engine.go:192-234 | With timers registered before they go off, no database errors in closers, restarts before the lot is due whose query for active lots succeeds, bid transactions no longer than the window and, if the extension is longer than the window, bid transaction and closer's read together no longer than it, every active lot has a registered timer, a call about to arm one, or a closer that will not lose the race; no timer is set later than the closing time. |
| Liveness.LotsClose | internal/auction/engine.go:154-234 | Within those limits, from every reachable world with no bid under way and all call ids below n, no run without a new bid or a crash has more than 27 n moves, in whatever order calls and timers move; and when such a run is over, that is, no closer is past its read limit and every move left would take one past it, the lot is closed. |
| Liveness.SomebodyMoves | internal/auction/engine.go:192-234 | As long as the lot is open and no closer is past its read limit, some call or timer can move within the limits and without taking a closer past it. |
| Liveness.RunsEnd | internal/auction/engine.go:154-234 | From every such world in which no closer is past its read limit there is a run that is over in that sense, and so has closed the lot. |
| Wakeup.ConflictMeans | internal/auction/engine.go:170-175 | Within those limits a closer's update finds its version gone only if another closer has closed the lot or a bid has extended it since the closer's read. |
| Wakeup.RestartGuardsExactlyWhen | internal/repository/postgres.go:126-130 | A restart leaves an active lot guarded if and only if it comes before the closing time and the query for active lots succeeds; when it comes after, the lot is in the state in which no later run accepts a bid or closes it. |
| Restart.RestartKeeps | cmd/goauction/main.go:59-67 | A crash that rolls back what was not committed and stops what was, followed by a restart whose query for active lots succeeds or fails, keeps the invariant of all calls. |
| Wakeup.StrandedForEver | internal/auction/engine.go:90-92 | A lot past its closing time without a watcher stays active in every later run: each bid is too late and nobody closes it. |
| Stranding.SlowTransactionStrands | internal/auction/engine.go:109-118 | For every lot that closes just after a whole window and every bid valid at its start there is a run, slow only in that bid's transaction, that strands the lot. |
| Stranding.SlowRegistrationStrands | internal/auction/engine.go:202-212 | There is a run without any delay, but with a timer that goes off before it is registered, that strands the lot. |
| Stranding.SlowReadStrands | internal/auction/engine.go:154-175 | If the extension is longer than the window, and the time limits of a transaction and of a closer's read together exceed the window, there is a run within both limits that strands the lot. |
| Stranding.LateRestartStrands | internal/repository/postgres.go:126-130 | There is a run without any other delay in which the process comes back after the lot was due and strands it. |
| Stranding.FailedLoadStrands | cmd/goauction/main.go:59-62 | There is a run in which the process is back long before the lot is due, but its query for active lots fails, which is only logged; a bid finds the lot past its closing time and it is stranded. |
| Stranding.FailedCloserStrands | internal/auction/engine.go:196-204 | There is a run in which the one closer meets a database error, which is only logged, and the lot is stranded. |
| Stranding.WakeUpsExactlyWhen | internal/auction/engine.go:192-234 | Active lots are watched in all runs if and only if timers are registered before they go off, the database does not fail for closers, the process is back from every crash before a lot is due and its query for active lots then succeeds, no bid transaction lasts longer than the window and, when the extension is longer than the window, transaction and closer's read together do not either. |
| TokenBucket.BucketsAreBudgets | internal/httpx/ratelimit.go:40-58 | A bucket holds what the accepted calls on its key leave of burst and rate; rejected calls and other keys do not enter. |
| TokenBucket.ExactMeaning | internal/httpx/ratelimit.go:40-58 | Without collections, a call is accepted if and only if, for every earlier accepted call on its key, the accepted calls from that one up to this one number at most burst + rate * elapsed. |
| BucketGc.ExactMeaningWithGc | internal/httpx/ratelimit.go:40-74 | The same of a limiter that is collected at any moments, if a bucket refills while it must be idle. |
| BucketGc.GcIsInvisible | internal/httpx/ratelimit.go:60-74 | If a bucket refills while it must be idle, a limiter collected at any moments answers every call as one that is never collected. |
| BucketGc.GcShows | internal/httpx/ratelimit.go:60-74 | If not, there is a run of calls and one collection whose answers differ. |
| BucketGc.GcInvisibleExactlyWhen | internal/httpx/ratelimit.go:60-74 | The collector changes no answer of any run if and only if rate * gcAfter is at least the burst. |
| RateLimiter.Bucket.Take | internal/httpx/ratelimit.go:50-57 | The bucket in place is refilled up to now, capped at the burst, and spends a token if it has one. |
| RateLimiter.Limiter.constructor | internal/httpx/ratelimit.go:27-38 | A new limiter knows no client and collects after 300 seconds. |
| RateLimiter.Limiter.Allow | internal/httpx/ratelimit.go:40-58 | The answer and all bucket levels are those of the table model; both maps keep the same keys, last-seen times equal bucket times, and no two keys share a bucket. |
| RateLimiter.Limiter.Collect | internal/httpx/ratelimit.go:64-72 | The loop removes exactly the keys idle for longer than the limit, from both maps, in whatever order it meets them. |
| RateLimiter.DefaultLimitersHideGc | internal/config/config.go:18-21 | Both limiters as configured by default answer as if nothing were ever collected. |
| Port.BestIsHighest | web/src/store.ts:71-76 | The reduction over the bids of a lot yields a highest bid, and nothing exactly when there are none. |
| Port.BestIsFirst | web/src/store.ts:71-76 | Of equal highest bids it is the first placed. |
| Port.BidFollowsRules | web/src/engine.ts:41-72 | `placeBid` accepts, refuses and changes a lot as the reference auction does. |
| Port.CloseFollowsRules | web/src/engine.ts:88-100 | `closeLot` closes a due active lot as the reference does and leaves any other as it is. |
| Port.CreateSparesOthers | web/src/engine.ts:11-39 | Creating a lot leaves the object, bids and timer of every other lot alone. |
| Port.BidSparesOthers | web/src/engine.ts:53-85 | So does a bid, although all bids share one array. |
| Port.CloseSparesOthers | web/src/engine.ts:88-101 | So does a close. |
| PortTimers.ActKeeps | web/src/engine.ts:88-119 | After any turn each active lot has its one timer or is due with its close queued, and no other lot has a timer. |
| PortTimers.DrainSettles | web/src/engine.ts:113-116 | Running the queued closes empties the queue and leaves every active lot with exactly its timer, even when a lot is queued twice. |
| PortTimers.FiringCloses | web/src/engine.ts:88-119 | A timer that goes off when its lot is due has closed it by the end of the turn; one that was capped changes nothing of the lot and is armed anew. |
| PortTimers.WakeUpsAreExact | web/src/engine.ts:110-119 | After every run of the event loop each active lot has one timer with deadline min(closing, armed + cap) and no other lot has one. |
| PortTimers.StartUpSettles | web/src/engine.ts:129-131 | After start-up with any stored lots each active lot has its one timer, and every lot that had expired before start-up is closed. |
| PortTimers.CappedTimersChain | web/src/engine.ts:110-119 | However distant the closing time, capped timers never close a lot early, and each firing that does not close it has used a whole cap. |
| PortTimers.ChainEnds | web/src/engine.ts:110-119 | So remaining time divided by the cap, rounded up, is enough firings to close the lot. |
| PortAgreement.RunHasLedger | web/src/engine.ts:11-108 | After any requests every lot of the port has a history of its own that replays, under the reference rules, to what the store holds of it. |
| PortAgreement.HighestIsLastPlaced | web/src/store.ts:57-76 | `highestBid` is the last bid placed on the lot, its amount is the current price, there is none exactly when the lot has no bids, and a closed lot's winner is its bidder. |
| PortAgreement.BidsOfALotClimb | web/src/engine.ts:46-62 | Among the bids of one lot the highest is unique. |
| PortAgreement.AgreeExactlyOnWholeCents | migrations/002_create_bids_table.up.sql:5 | An accepted bid leads port and service to the same auction if and only if it is a whole number of cents. |
| PortAgreement.PortAgreesExactlyWhen | web/src/engine.ts:11-108 | For all requests on any lots, port and service give the same answers and hold the same lots, bids and winners all along the run if and only if each accepted request has whole cents and a trimmed title that the columns take, and each creation the port refuses the service refuses too; however the database would choose among equal bids, and whatever the refused bids. |
| PortAgreement.StepAgrees | web/src/engine.ts:11-108 | From equal tables, one request gets equal answers and leads to equal tables if and only if it meets that condition. |
| PortAgreement.ServeLikeThePort | internal/api/handlers.go:35-52 | The Go objects themselves, handling such requests one by one, end with exactly the port's tables and give its answers. |
| PortAgreement.CreateChecksDiffer | internal/api/handlers.go:41 | The handler accepts a creation the port refuses if and only if it is otherwise in order and the lot would close at that very moment or its title is nothing but blanks; the other way never happens. |
| PortAgreement.BlankTitleDiffers | web/src/engine.ts:17 | With the title " " the service creates a lot and the port refuses it. |
| PortAgreement.PaddedTitleDiffers | web/src/engine.ts:24 | With the title " a" both create a lot, under different titles. |
| Port.TrimLeavesNothing | web/src/engine.ts:17 | Trimming leaves nothing of a title if and only if every character of it is a blank. |
| Port.TrimsBothEnds | web/src/engine.ts:24 | Trimming takes nothing but blanks, all there are at both ends, and keeps what is between them. |
| Browser.LotObject.constructor | web/src/engine.ts:22-34 | A new lot object is active, its price and start price the ones asked for, with its step and closing time, version 1, without winner or extension. |
| Browser.LotObject.Check | web/src/engine.ts:44-51 | The rejections, each exactly when its own condition holds and the earlier ones do not, and none exactly of acceptable bids. |
| Browser.LotObject.Raise | web/src/engine.ts:62-71 | The object changed in place has the new price, one version more and, exactly when at most 30 seconds were left, the new closing time and one extension more; nothing else changes. |
| Browser.LotObject.Seal | web/src/engine.ts:96-98 | The object changed in place is closed, one version on, with the bidder of the given bid as its winner; nothing else changes. |
| Browser.Store.UpsertLot | web/src/store.ts:39-43 | The store holds this object under its id and is otherwise unchanged. |
| Browser.Store.HighestBid | web/src/store.ts:71-76 | Filtering and reducing the array yields what the reduction of the model does. |
| Browser.Store.ListActive | web/src/store.ts:50-55 | Every active lot is listed, and no other, the most recently created first. |
| Browser.Engine.ScheduleClose | web/src/engine.ts:110-119 | A due lot is queued and loses its timer; any other gets one timer, for its closing time but no further away than 2147483000 ms, in place of the old one. |
| Browser.Engine.CreateLot | web/src/engine.ts:11-39 | The four refusals, each exactly when its condition holds and the earlier ones do not, change nothing; otherwise the stored object is returned, with price, start price, step and closing time as asked for, the trimmed title and its creation time, and is scheduled. |
| Browser.Engine.Record | web/src/engine.ts:53-72 | The bid is appended, the lot object changed in place, field by field, and stored again, and the lot is extended exactly when the bid was late. |
| Browser.Engine.PlaceBid | web/src/engine.ts:41-86 | Success if and only if the stored lot is active, not past its closing time, and the amount beats the price and is at least price plus step; each error exactly for its own reason, with nothing changed; on success the shared object has, field by field, what the bid changes, the bid is appended, and the lot gets a new timer exactly when at most 30 seconds were left. |
| Browser.Engine.CloseLot | web/src/engine.ts:88-108 | The same of a close. |
| Browser.Engine.RunMicrotasks | web/src/engine.ts:114 | The loop over queued closes ends in the drained state of the model. |
| Browser.Engine.RestoreTimers | web/src/engine.ts:129-131 | The loop over the listed lots schedules each active lot, newest first. |
| Tables.SameVersionSameLot | internal/repository/postgres.go:110-124 | Whatever others commit, versions do not fall, and a lot with the same version has the same row and bids; a locked row does not change. |
| Tables.CommitIsApplied | internal/repository/postgres.go:110-124 | Others commit on a lot exactly what the rules accept of it, unless it is locked, and each commit is one operation of that lot's own auction. |
| GoCalls.PlaceIsAtomic | internal/auction/engine.go:80-151 | Against any environment a call leaves the tables as the others' commits followed by its own bid, when it succeeds, and as the others left them when it fails; the answer and the extension come from the attempt that won. |
| GoCalls.RefusalIsTheRules | internal/auction/engine.go:87-126 | An error that is neither the database's nor the end of the attempts is the reference auction's refusal of this bid, on the tables as the others left them; a database error was met in some attempt. |
| GoCalls.ExhaustedMeansOvertaken | internal/auction/engine.go:120-151 | The attempts run out if and only if each of them passes the checks, meets no failure before its version check, and others commit on the lot between its read and its update. |
| GoCalls.QuietPlace | internal/auction/engine.go:82-126 | An undisturbed call answers and writes exactly what the reference auction says of the lot, success and refusal alike. |
| GoCalls.QuietAnswers | internal/auction/engine.go:82-119 | An undisturbed call succeeds if and only if the row is active, not past its closing time, the amount beats the price and is at least price plus step, and the column can hold it; each error is the answer if and only if its own condition holds and the earlier ones do not; and every field of row, bid and answer is given. |
| GoCalls.AnswersMean | internal/auction/engine.go:82-126 | Against any environment the same is true of the row as the others left it, unless the database fails or the attempts run out. |
| GoCalls.FirstAttempt | internal/auction/engine.go:82-126 | A failure of the database ends the call at the statement that meets it and is reported; an attempt is repeated only if others committed on the lot between its read and its update. |
| GoCalls.QuietClose | internal/auction/engine.go:154-175 | An undisturbed close seals a due lot with its one highest bid and leaves any other as it is. |
| GoCalls.SuccessIsOneRow | internal/auction/engine.go:100-118 | A success adds one row to the bids of its lot, none to another's, and touches no other lot. |
| GoCalls.LockedCallsTryOnce | internal/repository/postgres.go:100-108 | With the row lock the first attempt decides. |
| GoCalls.UnlockedCallsCanExhaust | internal/auction/engine.go:120-151 | Without it there are rivals who make all three attempts of a valid bid fail. |
| GoCalls.CloseIsAtomic | internal/auction/engine.go:163-175 | If the version is still the one first read, closing with the highest bid read in between is closing the current lot with its current bids. |
| GoEngine.Repo.GetLotByID | internal/repository/postgres.go:100-108 | The row, no row, or the database's error; in a transaction the row is locked when asked for. |
| GoEngine.Repo.UpdateLot | internal/repository/postgres.go:110-124 | The row is replaced, its price rounded, if and only if the version is the expected one; in a transaction nobody sees it yet. |
| GoEngine.Repo.CreateBid | internal/repository/postgres.go:164-168 | The bid is in the transaction, rounded, unless its amount does not fit the column or the database fails. |
| GoEngine.Repo.GetHighestBid | internal/repository/postgres.go:170-179 | A largest bid of the lot, or nothing when it has none. |
| GoEngine.Repo.CommitTx | internal/repository/postgres.go:89 | The transaction's bid and row become visible together, or neither when the commit fails, and the lock is gone. |
| GoEngine.Repo.CreateLot | internal/repository/postgres.go:92-98 | The row holds the rounded amounts; no row is inserted when the database fails or a column cannot hold one. |
| GoEngine.Engine.CreateLot | internal/auction/engine.go:44-60 | The answer has the price and start price asked for, the step, the closing time, version 1, no winner and no extension; the row has the same with the amounts rounded; it is counted and scheduled; or there is an error, exactly when the database fails or cannot hold a value, with nothing changed. |
| GoEngine.Engine.TryBid | internal/auction/engine.go:82-119 | One transaction, with lock and writes undone unless it wins, at whichever statement the database fails: it wins with every field as the bid changes it, conflicts only if others committed on the lot after its read, and is refused only for the error's own reason. |
| GoEngine.Engine.Finish | internal/auction/engine.go:104-118 | The versioned update and the commit decide between success, conflict and failure; on success row and answer differ from the row read by this one bid, in every field. |
| GoEngine.Engine.Attempts | internal/auction/engine.go:80-127 | The loop of at most three attempts ends with the tables and the outcome of the atomic call. |
| GoEngine.Engine.PlaceBid | internal/auction/engine.go:74-152 | The retry loop of three gives the answer and the tables of the atomic call; it sends `new_bid` and, if the attempt that won was late, `lot_extended` with the closing time and count of its lot, and then has a new timer; on an error it sends nothing. |
| GoEngine.Engine.Tell | internal/auction/engine.go:131-148 | The events of a committed bid, in order, and the new timer of a late one. |
| GoEngine.Engine.Shut | internal/auction/engine.go:163-175 | A due lot is closed by one operation after the others' commits, unless its version moved or the database failed. |
| GoEngine.Engine.CloseLotByID | internal/auction/engine.go:224-234 | Every path of `closeLotByID` and `CloseLot`: an unknown lot, one no longer active, one not due and rescheduled, a lost race, a failure of each of the three statements, and a close with its counters, cleared timer and event. |
| Alarms.LastToRegisterWins | internal/auction/engine.go:202-212 | Whatever timers go off and whatever halves of `scheduleClose` or clearings other calls do between creation and registration of the timer, every lot is left with at most one timer running that is not still in some call's hands, its registered one; this lot has one, for its closing time, if and only if the new timer did not go off before it was registered; and if it did, it has started a close of this lot. |
| Alarms.SchedulingSparesOthers | internal/auction/engine.go:206-211 | Registering a timer takes no other lot's. |
| Alarms.DueClosesAtOnce | internal/auction/engine.go:193-200 | For a lot already due its close is started, once, and no timer is touched. |
| Alarms.TimersStartTheirLots | internal/auction/engine.go:202-204 | Each timer that goes off starts the close of its own lot and is gone; nothing else starts one. |
| Alarms.TimersStrikeOnce | internal/auction/engine.go:202-204 | No timer starts two closes. |
| Alarms.ClearedIsQuiet | internal/auction/engine.go:215-222 | After `clearTimer` no timer of the lot is running but what another call is about to register; every other lot keeps what it had, at most one. |
| GoEngine.Engine.ScheduleClose | internal/auction/engine.go:192-213 | A due lot is closed at once, its close being added to those started and no timer touched; any other gets a timer for its closing time that runs from its creation on and is registered after whatever happens before the mutex is taken, or has started its close by then. |
| GoService.Handle | internal/api/handlers.go:35-52 | The handler's checks and the engine's undisturbed call give the answer and the tables by which the service is compared with the port; field by field: a lot as asked for, or no lot exactly when a check fails or the column cannot hold it; a bid taken exactly when acceptable, or the error whose condition holds; a due lot closed with its last bid's bidder. |
| Statistics.TallyIsConserved | internal/repository/postgres.go:231-240 | A column grouped by user and summed over all users is the column's sum. |
| Statistics.StatisticsOfUser | internal/repository/postgres.go:231-240 | A user's bids are the rows of the bid table with this user, the wins are the lots with this winner, each once, and the money spent is the sum of their prices. |
| Statistics.ReachableSettles | internal/auction/engine.go:167-173 | In every reachable state the version of a lot accounts for its bids, and it has a winner exactly when it was sold, at its last bid. |
| Statistics.StatisticsAreConserved | internal/repository/postgres.go:231-240 | Over all users, bids counted are what the versions of the lots account for, wins are the lots sold, and money spent is the sum of their final prices. |

## Left out

- HTTP handlers, routing, middleware, templates, pages and the DOM code, except the handler's checks on a new lot.
- Users, passwords, tokens, cookies and sessions.
- Delivery of WebSocket messages; only what each call sends, in its own order. Nothing is claimed about the order of events of different calls, which are sent after commit without a lock.
- The events the port emits to its own page.
- Titles once the lot is made (nothing changes them; both sides' titles are in the answers to creations), creation times (but for the order of the port's lists), bid ids and the timestamp in `new_bid`.
- The counters across a restart, which sets the gauge anew; and the retry, latency, extension and per-lot bid metrics.
- SQL text and migrations, overflow of the `version` column, commits whose outcome is unknown, and deletion of users or lots.
- Floating point: amounts and tokens are exact reals, so rounding of float64 sums and not-a-number or infinite amounts are not modelled.
- Rounding of `closing_at` to microseconds by the database, time zones and jumps of the wall clock.
- Wakeup.NeverStranded: one process; with several the timers of the others are not modelled.
- Interleavings over several lots: calls on different lots share no row, lock or version, so the protocol is modelled per lot; `Tables` and `GoCalls` do have many lots.
- Sharing of the `*models.Lot` between engine and callers: lots of the Go engine are values. The port's lot objects are shared, as in the program.
- Recent bids, lists of the service with paging, searches by user, bids and wins by user, statistics of an unknown user, bots, seed data and the copy of the port's store in localStorage.
- Browser timers that go off early.
- The shape of a client address and the scope label of a limiter.
