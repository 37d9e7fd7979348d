# Relay: the shared-state protocols, verified

Relay is a messaging platform of several services. This project models the parts of its
gateway, dispatcher and protocol package where state is shared between processes, and
proves what those parts promise whatever the other processes, the network and the clock
do:

- **Connection slots.** Five Redis keys per user are leases that cap a user at five open
  sockets across any number of gateways. `Slots` is the store and its two atomic commands,
  `SlotRegistry` the client (`claim`, `renew`, `release`, `releaseAll`) running against a
  store that others use in between, `SlotProtocol` the step system of all connections, with
  one step for each command, for time passing, for a lost answer, for a command that runs
  late and for a release at shutdown beside a session that stays open.
- **Connection minutes.** `Calendar` is UTC year and month as section 21.4.1 of ECMA-262
  defines them, `MinuteBuckets` the loop that splits a stay into months, `OrderedMap` a Map
  in insertion order (section 24.1 of ECMA-262), `Metering` the meter object and the api's
  crediting rule, `RetentionHistory` the retained entries with their history,
  `MeterRuns` the step system of lost, repeated and late reports and of landings that
  overlap inside the api, `MeterGuarantees` what holds of rows and retained entries after
  every run of it, and `MeterCharges` what a tenant is charged.
- **Webhook delivery.** `Delivery` is `deliverOnce` and the api's outcome contract,
  `DeliveryRuns` broker, workers and api with crashes at any point, `Poll` one pass with its
  grouping and its concurrent workers, `Expand` and `ExpandRuns` the turning of events into
  deliveries by an api that commits rows and claim one after the other.
- **The fixed-window counter.** `Limits` is the arithmetic, the Redis counter and `spend`,
  `LimitRuns` all processes spending from one counter.
- **Subscriptions and names.** `Subscriptions` is the reference counting of membership and
  fan-out over a command queue; `Subjects`, `EventSubjects` and `Signature` are the strings
  everything is addressed and signed by. `Text` and `Common` are what they share.

A class stands for each object the services update in place. Its methods are proved equal
to a function of the old state; the step systems are built from the same functions, and the
lemmas are about those.

## Where the code and its documentation disagree

The model follows the code. Each of these is stated as a lemma with a condition or a run.

- `services/gateway/src/connections.ts:21-22` says two missed heartbeats in a row never cost
  a live connection its slot. With 20 s and 60 s they do unless Redis keeps a key through
  its very expiry instant (`SlotProtocol.MissedHeartbeats`).
- `packages/protocol/src/internal.ts:516-519` says a redelivery after a successful report is
  acknowledged rather than posted again. `material` does not look at the state of the row,
  so it is posted again (`DeliveryRuns.RedeliveryPostsAgain`, `DeliveryRuns.RecordedButUnacked`),
  unless the endpoint has become unavailable (`DeliveryRuns.UnavailableIsAckedUnposted`).
- `services/dispatcher/src/main.ts:59-62` keeps the broker's redeliveries apart from the
  customer's retries. `material` names whatever attempt the row stands at, so lost
  acknowledgements of one message alone can take a delivery through all its attempts to the
  dead letter, its schedule unwaited (`DeliveryRuns.LostAcksExhaustRetries`).
- `services/api/src/db/repository.ts:1817-1819` answers a repeated report with what was
  decided the first time. It does unless the delivery has ended at a later attempt
  (`Delivery.RepeatIsAnsweredAsFirst`, `DeliveryRuns.RepeatsAreHarmless`).
- `packages/protocol/src/internal.ts:474-476` and `services/dispatcher/src/expand.ts:7-12`
  say that an event's claim and its rows commit together. `claimEvent`
  (`services/api/src/db/repository.ts:2414-2433`) opens a transaction for the claim, and the
  rows are inserted outside it (`repository.ts:1503-1536`), so they commit first. If the api
  dies in between, the event has rows and no claim: for as long as one of those endpoints
  still matches, every further delivery fails and the event is never acknowledged, and when
  none does and another matches it is expanded a second time (`ExpandRuns.DeathOrphans`,
  `ExpandRuns.OrphanIsNeverAcked`, `ExpandRuns.OrphanIsAckedIffDisjoint`).
- `packages/protocol/src/internal.ts:562-566` credits the difference to what is credited
  already. `creditConnectionMinutes` (`services/api/src/db/repository.ts:950-986`) locks only
  rows that exist and then writes what it computed, so of two overlapping first reports of
  a connection the lower can be left, and a closed socket's last minute lost
  (`MeterRuns.LandingIsExact`, `MeterGuarantees.OverlappingLandingsLose`).
- `services/gateway/src/meter.ts:96-99` says every loss in the design under-counts, and
  `packages/protocol/src/internal.ts:562-566` that a report delivered twice credits 0. Each
  landing adds its own delta to the tenant's figure (`repository.ts:990-1005`), so what a
  landing overwrites without having seen it is charged a second time: two overlapping
  reports of one and of two minutes charge three, and one report delivered twice at once charges four
  (`MeterCharges.ChargedIsRowAndOverwritten`, `MeterCharges.ReplayCreditsNothingIff`,
  `MeterGuarantees.OverlappingLandingsLose`, `MeterCharges.OverlappingReplayChargesAgain`).
- `services/dispatcher/src/expand.ts:42-47` and `main.ts:249-254` say that what can never be
  expanded is terminated on its first delivery. That is so exactly for what does not parse;
  an envelope of three strings that the request schema refuses is retried to the broker's
  limit (`Expand.DecisionIsExact`, `ExpandRuns.RefusedIsNeverSettled`).
- `services/api/src/db/repository.ts:1817-1819` takes a report for a past attempt for a repeat. Two
  deliveries of one message can post the same attempt at once and hear different answers; the
  first report decides, so a webhook that the customer took can be on record as dead
  (`DeliveryRuns.OutcomesFollowAnswers`, `DeliveryRuns.TakenAndDead`).
- A delivery message that is the JSON value `null` is decodable, so it is not terminated; it
  makes the whole pass throw (`Poll.GroupByEndpoint`, `DeliveryRuns.NullIsNeverSettled`).
- `services/gateway/src/meter.ts` never splits a report. A gateway whose open sockets and
  retained entries exceed 5,000 can no longer report at all
  (`MeterGuarantees.ReportLandsIffItFits`, `MeterGuarantees.OversizeReportNeverLands`).
- A spend whose INCR reaches Redis after its key has expired is counted as the first of its
  window again (`LimitRuns.LateIncrAllowsOneMore`, `LimitRuns.SecondSpendArrivesLate`).
- A spend whose count is lost on the way back has used it up all the same, so of the spends
  the store answers a window can allow fewer than its limit, even none
  (`LimitRuns.WindowAllowsExactlyLimit`, `LimitRuns.LostAnswerAllowsLess`).

## Model

| member | source | states |
|---|---|---|
| Slots.LiveIdIsSafe | services/gateway/src/connections.ts:160-175 | no command overwrites another connection's live id, and none touches any other key |
| Slots.OwnCommandKeepsLiveId | services/gateway/src/connections.ts:258-271 | a connection's own commands leave its live id there, and only its renewal moves the expiry, unless it retires the slot |
| SlotRegistry.Registry.Send | services/gateway/src/connections.ts:192-204 | one command under `failable`: both a command that ran unheard and one that never ran come back as not asked |
| SlotRegistry.Registry.Claim | services/gateway/src/connections.ts:232-254 | the loop with two commands per contested slot and one failure path is the specified walk |
| SlotRegistry.Registry.Renew | services/gateway/src/connections.ts:266-285 | IFEQ on the own id, then at most one walk, as specified against any interleaving; the three lemmas below say what that comes to |
| SlotRegistry.Registry.Release | services/gateway/src/connections.ts:301-305 | a tombstone written only over the own id |
| SlotRegistry.Registry.ReleaseAll | services/gateway/src/connections.ts:307-318 | the same for every entry of a list, in order, past any failure |
| SlotRegistry.QuietWalkTakesLeastFree | services/gateway/src/connections.ts:232-254 | alone, a walk takes the least slot that is absent, expired or tombstoned and writes nothing else; full iff every slot holds a live id |
| SlotRegistry.HeldNeverExceedsHolders | services/gateway/src/connections.ts:45-51 | `held` never exceeds the number of live ids, and a full answer counts them exactly |
| SlotRegistry.OnlyTimeEmpties | services/gateway/src/connections.ts:287-300 | no command of any connection ever empties a slot key; only time passing does |
| SlotRegistry.FullMeansFiveRefusals | services/gateway/src/connections.ts:237-253 | under any interleaving, full means each slot was occupied at its first command and at its second held a live id, or had expired between the two |
| SlotRegistry.ClaimedSlotIsOwned | services/gateway/src/connections.ts:245-251 | a claimed slot holds the claimant's id for a full bound from the moment its command ran |
| SlotRegistry.UnenforcedIffUnheard | services/gateway/src/connections.ts:192-204 | under any interleaving a claim is answered unenforced iff one of the commands it sent was not heard |
| SlotRegistry.RenewedIsKept | services/gateway/src/connections.ts:266-274 | under any interleaving a renewal is answered renewed iff its command was heard and found the own id on the own slot, and then that key stands for a full bound and nothing else changes |
| SlotRegistry.LostSlotIsReclaimed | services/gateway/src/connections.ts:275-285 | otherwise the slot did not hold the id; a slot it is given then holds the id for a full bound, and full carries five and means that all five slots refused both commands |
| SlotRegistry.RenewUnenforcedIffUnheard | services/gateway/src/connections.ts:266-285 | a renewal is answered unenforced iff one of the commands it sent was not heard |
| SlotRegistry.EachEntryReleasesItsOwn | services/gateway/src/connections.ts:307-318 | whoever acts and whatever time passes between the commands of one list, each entry retires its slot iff its command runs and then finds its own id there, changes nothing else, and the list goes on past it |
| SlotRegistry.ReleaseAllFreesExactlyTheOwned | services/gateway/src/connections.ts:307-318 | over any list, stale and repeated entries too, with nothing in between exactly the slots still owned by the ids named for them are tombstoned and no other key changes |
| SlotRegistry.ClaimAfterReleaseAllSucceeds | services/gateway/src/connections.ts:214-226 | when one process held all five, a claim is full before its releaseAll and gets slot 0 after it, however much or little time passes |
| SlotProtocol.RunIsSound | services/gateway/src/connections.ts:192-318 | in every run with any losses, late commands and releases at shutdown, every key names a connection of that user and every lease still current is backed by its key |
| SlotProtocol.NeverOverAdmits | services/gateway/src/connections.ts:232-305 | in every reachable state each connection within its bound that has not let go of its slot has its id in its key, and one user has at most five of them, lost replies or not |
| SlotProtocol.ShedIsSound | services/gateway/src/connections.ts:307-318 | a release at shutdown beside a session that goes on, heard or lost, breaks no lease but the one it ends |
| SlotProtocol.ShedReleases | services/gateway/src/connections.ts:307-318 | such a release sends what `release` sends for that slot, runs at once or, when its answer is lost, perhaps later, and touches no other session |
| SlotProtocol.OneSlotEach | services/gateway/src/connections.ts:266-285 | while no answer to a command of a re-claim is lost, whatever else is, a connection owns at most one slot key at any instant, also while it re-claims |
| SlotProtocol.LostReplyOwnsTwo | services/gateway/src/connections.ts:192-204 | a run from the start in which one lost answer of a re-claim leaves a connection owning two slot keys |
| SlotProtocol.PunctualRenewalsNeverMove | services/gateway/src/connections.ts:266-271 | if each renewal that is answered runs while the last lease stands, the connection stays on its slot for a run of any length and is answered renewed, whichever answers are lost and whatever all others do |
| SlotProtocol.MissedHeartbeats | services/gateway/src/connections.ts:19-30 | after an answered renewal and n missed heartbeats the next renewal succeeds iff n < 2, or n = 2 and a key is live at exactly its expiry |
| SlotProtocol.WalkIsSteps | services/gateway/src/connections.ts:232-254 | the client's walk takes exactly the steps the step system gives a walking connection |
| SlotProtocol.RenewIsSteps | services/gateway/src/connections.ts:266-285 | the client's renewal takes exactly the steps the step system gives a renewing connection, its own command and then the walk's, and leaves the session as the outcome says |
| SlotProtocol.ReleaseIsSteps | services/gateway/src/connections.ts:301-305 | the client's release takes exactly the step of a releasing connection |
| SlotProtocol.ClosingReleases | services/gateway/src/connections.ts:301-305 | a socket that closes and is answered has left the store as `release` leaves it, and holds no lease |
| Calendar.DayFromYearFormula | services/gateway/src/meter.ts:30-34 | summed year lengths equal the closed day number of section 21.4.1 of ECMA-262 |
| Calendar.MonthIsItsRange | services/gateway/src/meter.ts:30-34 | a minute lies in a UTC month iff it lies between that month's first minute and the next one's |
| Calendar.MonthHasItsMinutes | services/gateway/src/meter.ts:30-34 | each month is as many days of 1,440 minutes long as the calendar gives it in that year, and January 1970 begins at minute 0 |
| Calendar.PeriodReadsBack | services/gateway/src/meter.ts:30-34 | a period text reads as the month's year and its number counted from 1, and ends in `-01` |
| Calendar.PeriodNamesMonth | services/gateway/src/meter.ts:30-34 | two months have the same period text iff they are the same month |
| MinuteBuckets.UtcIsGood | services/gateway/src/meter.ts:30-34 | the UTC calendar has what the bucket proofs ask of a calendar: months cut time into rising ranges with different names |
| MinuteBuckets.PeriodOfSaysWhen | services/gateway/src/meter.ts:30-34 | the period of an instant reads as a year and month iff the instant lies between the first minute of that month and of the next |
| MinuteBuckets.BucketsFor | services/gateway/src/meter.ts:71-81 | the loop over floored minutes, inclusive at both ends, equals the specified totals, and is empty when `at` is before the opening minute |
| MinuteBuckets.BucketsClosedForm | services/gateway/src/meter.ts:71-81 | the totals are the months from first to last in order, each with the overlap of the range and that month |
| MinuteBuckets.OwedIsOverlap | services/gateway/src/meter.ts:71-81 | what a stay owes a month is the overlap of its minute range with that month |
| MinuteBuckets.BucketsHoldOwed | services/gateway/src/meter.ts:71-81 | a month has an entry iff it is owed something, and the entry is what it is owed |
| MinuteBuckets.SumIsMinutes | services/gateway/src/meter.ts:71-81 | over all months the total is last minus first plus one, or zero |
| MinuteBuckets.StayCosts | services/gateway/src/meter.ts:53-61 | a stay of d milliseconds costs floor(d/60000)+1 or +2 minutes |
| MinuteBuckets.OwedGrows | services/gateway/src/meter.ts:130-132 | what is owed never shrinks as the stay goes on |
| MinuteBuckets.OwedSplits | services/gateway/src/meter.ts:63-66 | what is owed splits additively at any minute |
| OrderedMap.PutLooksUp | services/gateway/src/meter.ts:147-149 | setting a key changes that key's value only and keeps keys distinct |
| OrderedMap.RemoveLooksUp | services/gateway/src/meter.ts:203-205 | deleting a key removes that key only |
| OrderedMap.PutKeepsOrder | services/gateway/src/meter.ts:168-183 | setting a key that is there leaves all keys where they are, and a new one goes to the end |
| OrderedMap.RemoveKeepsOrder | services/gateway/src/meter.ts:203-205 | deleting a key leaves the others in their order |
| Metering.Meter.HoldEntry | services/gateway/src/meter.ts:167-183 | at 4,000 a new key evicts the oldest entry and counts it; a known key is overwritten in place |
| Metering.Meter.Closed | services/gateway/src/meter.ts:166-184 | every entry of the closed socket is held, in bucket order |
| Metering.Meter.BeginReport | services/gateway/src/meter.ts:186-190 | a report is the retained entries in map order, then those of every open socket |
| Metering.Meter.EndReport | services/gateway/src/meter.ts:192-215 | acceptance forgets what the report carried and nothing else, null clears everything, a failure changes nothing, whatever happened meanwhile |
| Metering.CreditedAfter | services/api/src/db/repository.ts:945-986 | a landing leaves on each row the highest of what it read there and what it states |
| Metering.CreditKeepsHighest | packages/protocol/src/internal.ts:562-568 | crediting max(0, reported - credited) keeps the ledger at the pointwise maximum of all totals reported, in any order, iff it overwrites no row it did not read with less |
| Metering.CoveredCreditsNothing | packages/protocol/src/internal.ts:587-592 | a batch whose totals are covered by rows it reads credits 0 and changes nothing |
| Metering.CreditsNothingIff | services/api/src/db/repository.ts:950-990 | a landing credits 0 iff it states no more of any key than it reads there |
| Metering.ChargesWhatItAdds | services/api/src/db/repository.ts:972-1005 | to one connection and month a landing charges what it adds to the row, and once more what it overwrites there unseen |
| Metering.AnswerIsTheSum | packages/protocol/src/internal.ts:587-592 | the answer to a report is the sum of the deltas applied |
| RetentionHistory.HoldAllNewIsOk | services/gateway/src/meter.ts:166-184 | holding entries keeps cap, order and books, and is the meter's own hold |
| RetentionHistory.SettleAllFate | services/gateway/src/meter.ts:201-205 | an accepted report settles what it carried and is still retained, and nothing else |
| RetentionHistory.EvictedIsOlder | services/gateway/src/meter.ts:172-175 | whatever was evicted had been inserted before everything still retained |
| RetentionHistory.EvictedAtTheCap | services/gateway/src/meter.ts:168-180 | after an evicted entry at least 4,000 others were inserted |
| RetentionHistory.Conserves | services/gateway/src/meter.ts:166-205 | insertions = retained + evicted + removed after acceptance + cleared |
| MeterRuns.RunIsInv | services/gateway/src/meter.ts:140-229 | the invariant behind the metering results holds after every run of opens, closes, ticks, sends, overlapping landings and answers in any order |
| MeterRuns.LandingIsExact | services/api/src/db/repository.ts:945-986 | a landing keeps a row at the maximum accepted for it iff it does not overwrite it unseen with less; a serial one always does |
| MeterRuns.RunIsExact | packages/protocol/src/internal.ts:562-568 | a row that no landing of a run undercuts, overlapping or not, is the maximum accepted for it, and holds the whole of a total once settled |
| MeterRuns.SerialUndercutsNone | services/api/src/db/repository.ts:950-960 | a run whose landings each see every row undercuts none |
| MeterGuarantees.HeldIsTheMetersMap | services/gateway/src/meter.ts:166-216 | in every reachable state each step changes the retained map as the meter's methods do |
| MeterGuarantees.RowsNeverExceedOccupied | services/gateway/src/meter.ts:152-164 | after every run no row exceeds the accepted totals, nor these the minutes really occupied in that month; a row no landing undercut is their maximum |
| MeterGuarantees.ClosedMinutesAreAccountedFor | services/gateway/src/meter.ts:186-216 | a closed socket's final total is retained, or settled and in the ledger in full if no landing undercut it, or evicted with 4,000 entries inserted after it, or cleared by a null answer after the socket closed |
| MeterGuarantees.RetentionIsBoundedAndConserves | services/gateway/src/meter.ts:92-100 | never more than 4,000 entries, oldest out first, and every insertion accounted for once |
| MeterGuarantees.EvictsOnlyPastTheCap | services/gateway/src/meter.ts:168-180 | after anything discarded at least 4,000 entries were inserted |
| MeterGuarantees.OneReportConverges | services/gateway/src/meter.ts:128-139 | from every reachable state one report of a permitted size, taken and answered, puts each row at exactly what its socket occupied, but for what was evicted, cleared, or lost to overlapping landings, and empties the map; a row no landing undercut has lost nothing |
| MeterGuarantees.OverlappingLandingsLose | services/api/src/db/repository.ts:950-986 | a run in which two landings that found no row leave a closed, settled socket a minute short and charge three minutes for its two |
| MeterGuarantees.ReportLandsIffItFits | packages/protocol/src/internal.ts:583-585 | a report has one entry per retained entry and per month of each open socket, and is refused iff these are more than 5,000 |
| MeterGuarantees.OversizeReportNeverLands | packages/protocol/src/internal.ts:583-585 | in a reachable state with more than 5,000 open sockets and retained entries together, every report is refused |
| MeterGuarantees.AnyNumberOpens | services/gateway/src/meter.ts:186-190 | any number of sockets can be open at once, so such states are reached |
| MeterCharges.ChargedIsRowAndOverwritten | services/api/src/db/repository.ts:972-1005 | after every run a connection has been charged its row and what landings overwrote there unseen; exactly its row iff each landing saw it or it was empty, as serial ones do, and then no more than it occupied |
| MeterCharges.ReplayCreditsNothingIff | packages/protocol/src/internal.ts:562-568 | in every reachable state a report landing again credits 0 iff it sees every row it names and these cover it, and then changes no row; a row that no landing undercut does cover it |
| MeterCharges.OverlappingReplayChargesAgain | services/api/src/db/repository.ts:950-986 | a run in which one report is delivered twice at once: the row is right and its two minutes are charged as four |
| MeterCharges.FigureIsRowsAndOverwritten | services/api/src/db/repository.ts:990-1005 | after every run a tenant's figure for a month is the sum of its rows and of what was overwritten there; equal to the rows iff each landing saw each row it named; and the rows sum to no more than its sockets occupied |
| MeterCharges.FigureConverges | services/gateway/src/meter.ts:128-139 | from every reachable state one report taken and answered brings a tenant's figure to exactly what its sockets occupied and what had been overwritten, if none of its entries was evicted, cleared or lost to a race |
| MeterCharges.TenantsNeverConflict | services/api/src/db/repository.ts:964-966 | in no reachable state does a report name a connection for another tenant than an accepted entry did, so no landing is refused for it |
| Limits.RetryAfterIsExact | services/gateway/src/limits.ts:63-77 | waiting retryAfterSeconds lands in a later window, one second less does not, and resetSeconds is the first whole second outside this one (section 10.2.3 of RFC 9110) |
| Limits.WindowHolds | services/gateway/src/limits.ts:28-30 | an instant belongs to a window iff it lies in it |
| Limits.DecisionFailsOpen | services/gateway/src/limits.ts:38-77 | a decision without a count is never over, one with a count is over iff it exceeds the limit, and what remains is what the limit leaves after the count, all of it without one |
| Limits.GatewayLimits.Spend | services/gateway/src/limits.ts:112-125 | a store held to be down is not asked; otherwise INCR, then PEXPIRE on a first count; any failure fails open and keeps the store down for five seconds, an answer ends that |
| LimitRuns.SpendIsSteps | services/gateway/src/limits.ts:112-125 | one process's spend takes the step system's own steps, leaves the store as they do and decides what they decide, whatever it hears or does not hear of its commands |
| LimitRuns.SpendBegins | services/gateway/src/limits.ts:112-115 | a spend reads the clock, which names its bucket; with the store held to be down it has decided then; neither touches the store |
| LimitRuns.KeyOutlivesItsWindow | services/gateway/src/limits.ts:117-119 | after every run, a counted key is live for as long as its own window lasts, whether or not its PEXPIRE ran |
| LimitRuns.RunIsNumbered | services/gateway/src/limits.ts:116-119 | in every run, the counts handed out between two restarts of a key are 1, 2, … each to one spend |
| LimitRuns.WindowAllowsAtMostLimit | services/gateway/src/limits.ts:38-41 | after every run, over all processes, a window allows at most its limit of answered spends once, and once more for each INCR that found its counted key expired |
| LimitRuns.WindowAllowsExactlyLimit | services/gateway/src/limits.ts:38-41 | after every run, allowed spends and lost answers within the limit add up to min(counted, limit) between two restarts, so exactly min(n, limit) of n answered are allowed iff no such answer is lost or all answered are allowed; and of a whole window when no INCR found its key expired |
| LimitRuns.AllAnsweredIsExact | services/gateway/src/limits.ts:38-41 | so with every counted spend answered exactly min(n, limit) are allowed between two restarts, and of all when no INCR found the key expired |
| LimitRuns.RefusedIsOverItsLimit | services/gateway/src/limits.ts:32-41 | after every run, of all decided spends, answered or not, exactly those are refused that were told the count Redis gave them and it exceeds their limit, and then as many others as the limit allows had been counted |
| LimitRuns.LostAnswerAllowsLess | services/gateway/src/limits.ts:115-125 | a run in which one answer is lost and none of the one answered is allowed under a limit of one |
| LimitRuns.AnyMinuteAllowsAtMostTwice | services/gateway/src/limits.ts:28-30 | any sixty seconds allow at most twice the limit, and the limit again for each INCR that found its key expired |
| LimitRuns.RevivesIffExpired | services/gateway/src/limits.ts:116-117 | a window's counting restarts in a run iff some INCR of it finds its counted key expired |
| LimitRuns.TimelyFindsNoneExpired | services/gateway/src/limits.ts:117-119 | an INCR that runs inside its window never finds its counted key expired |
| LimitRuns.LateIncrAllowsOneMore | services/gateway/src/limits.ts:115-119 | from any state, an INCR that finds its counted key expired restarts the window and is allowed on top of all that were before |
| LimitRuns.SecondSpendArrivesLate | services/gateway/src/limits.ts:113-119 | a run that reaches such a state with the limit already used up |
| Delivery.Deliverer.DeliverOnce | services/dispatcher/src/deliver.ts:58-130 | material, then POST, then report, with the attempt the material names; a customer's failure is an input, an api failure a throw |
| Delivery.PostsThenRecords | services/dispatcher/src/deliver.ts:64-129 | it posts once iff an attempt was named; when it returns an outcome, the attempt it posted has one on record |
| Delivery.PostsWhatIsDue | services/dispatcher/src/deliver.ts:64-74 | it posts iff it hears from the api and the endpoint is then available, and posts the attempt the row stands at; it skips iff it hears and the endpoint is not |
| Delivery.ReturnsTheAnswer | services/dispatcher/src/deliver.ts:117-130 | having posted it returns iff the report is answered, and while the attempt is due it returns delivered iff the customer answered with one of the 200s |
| Delivery.ThrowsOnlyForTheApi | services/dispatcher/src/deliver.ts:51-57 | it throws only if a call to the api was not heard |
| Delivery.AnsweredIsRecorded | packages/protocol/src/internal.ts:514-528 | an answered report leaves its attempt with an outcome on record, this one or the earlier one |
| Delivery.ReportDecides | services/api/src/db/repository.ts:1841-1957 | a due attempt is delivered iff its status is one of the 200s; otherwise the next attempt is due iff the schedule has one, and the delivery is dead iff it has none; it is written down with its status and no other row moves |
| Delivery.StaleReportChangesNothing | services/api/src/db/repository.ts:1817-1840 | any other report changes nothing and is answered by the row's state; an unknown delivery is an error |
| Delivery.ReportIsOk | services/api/src/db/repository.ts:1783-1957 | a report keeps one outcome per attempt and the row right after its last one |
| Delivery.ReportTwiceIsReportOnce | packages/protocol/src/internal.ts:516-519 | reporting an attempt again at once, whatever status is said, changes nothing and is answered as the first time |
| Delivery.RepeatIsAnsweredAsFirst | services/api/src/db/repository.ts:1817-1840 | a repeat is answered as the first report was iff the delivery has not ended at a later attempt |
| DeliveryRuns.WorkerRunsDeliverOnce | services/dispatcher/src/main.ts:220-222 | whatever others do to the api in between, a worker of the step system makes the calls of deliverOnce and ends where it ends |
| DeliveryRuns.NothingIsSilentlyLost | services/dispatcher/src/main.ts:217-243 | after every run, an acknowledged message was answered null by material or its named attempt has an outcome on record; a terminated one was not JSON; any other is still fetchable or was handed out ten times |
| DeliveryRuns.StepSettles | services/dispatcher/src/main.ts:202-242 | a message is settled by the first acknowledgement or termination of it that reaches the broker, and by nothing else |
| DeliveryRuns.SettlementsStand | services/dispatcher/src/main.ts:202-242 | a settled message stays as it was settled in every run |
| DeliveryRuns.AtMostOnePostPerDelivery | services/dispatcher/src/main.ts:63 | no broker delivery posts twice, and one message causes at most ten POSTs |
| DeliveryRuns.OutcomesComeFromPosts | services/dispatcher/src/deliver.ts:114-127 | every outcome on record came from a POST of that attempt and no attempt has two |
| DeliveryRuns.OutcomesFollowAnswers | services/api/src/db/repository.ts:1841-1957 | after every run an outcome on record was decided on the status some POST of that attempt ended with, delivered iff that is one of the 200s and dead iff it is not and no attempt was left; so it is delivered if all POSTs of the attempt were taken and is not if none was |
| DeliveryRuns.TakenAndDead | services/api/src/db/repository.ts:1817-1840 | a run in which a customer took a POST whose delivery is on record as dead, two POSTs of one attempt having ended differently |
| DeliveryRuns.RedeliveryPostsAgain | services/dispatcher/src/deliver.ts:58-100 | from any state an open message of an available endpoint can be posted once more, with the row's attempt, whatever is on record |
| DeliveryRuns.LostAcksExhaustRetries | services/dispatcher/src/main.ts:59-63 | from any state with deliveries enough left, lost acknowledgements of one message alone take its row through every attempt left to the dead letter |
| DeliveryRuns.RepeatsAreHarmless | services/api/src/db/repository.ts:1817-1840 | after every run a repeated report changes nothing, and is answered as the first iff the delivery has not ended at a later attempt |
| DeliveryRuns.UnavailableIsAckedUnposted | services/dispatcher/src/deliver.ts:64-74 | if the endpoint is not available it is acknowledged without a POST |
| DeliveryRuns.RecordedButUnacked | services/dispatcher/src/deliver.ts:114-116 | a run that records a delivery as made and leaves its message open |
| DeliveryRuns.NullIsNeverSettled | services/dispatcher/src/main.ts:203-214 | a message that is the JSON value null is never acknowledged nor terminated |
| Poll.GroupByEndpoint | services/dispatcher/src/main.ts:202-215 | the grouping loop equals its specification, terminates what is not JSON, and throws iff some message is null |
| Poll.GroupsPartition | services/dispatcher/src/main.ts:202-215 | each endpoint's queue is exactly its messages in fetch order, no endpoint has two, and with the terminated ones every message is accounted for |
| Poll.UndecodableStand | services/dispatcher/src/main.ts:202-212 | what is terminated is every fetched message that is not JSON, each once, in fetch order |
| Poll.ForStand | services/dispatcher/src/main.ts:213-215 | an endpoint's queue is every fetched message that names it, each once, in fetch order |
| Poll.RunMessage | services/dispatcher/src/main.ts:220-241 | a message is acknowledged iff its material was heard and, when it was posted, its report too |
| Poll.RunQueue | services/dispatcher/src/main.ts:219-242 | one worker's loop does to its queue what the specification says and counts what it acknowledged |
| Poll.AcksWhatDeliverOnceReturns | services/dispatcher/src/main.ts:221-241 | a message is acknowledged iff deliverOnce returns, and the POST it starts is the one deliverOnce sends |
| Poll.OthersDoNotShow | services/dispatcher/src/main.ts:180-193 | from any state and under any interleaving, an endpoint's worker and its log are what the worker would have come to alone, hearing what it heard |
| Poll.AloneKeepsMessages | services/dispatcher/src/main.ts:219-220 | a worker takes its messages in order and loses none |
| Poll.EndpointsAreIsolated | services/dispatcher/src/main.ts:180-193 | under any interleaving and whatever is heard, an endpoint's log is its queue run under the replies it heard, as far as it has come, and all of it once its worker is through |
| Poll.OneInFlightAndHandledIsAcked | services/dispatcher/src/main.ts:189-193 | at most one POST to an endpoint is in flight at any time, and the count returned is the number acknowledged |
| Poll.WorkerFinishesAlone | services/dispatcher/src/main.ts:182-187 | from any state and whatever it will hear, one worker can finish its queue with every other standing still |
| Expand.ParsesIsThreeTexts | services/dispatcher/src/expand.ts:23-38 | what parses is exactly an object with three text fields, and the envelope's id, type and environment are the texts of `id`, `type` and `environment_id` |
| Expand.InsertIsOk | services/api/src/db/repository.ts:1503-1536 | an insertion gives no endpoint a second row of an event and no claimed event another row |
| Expand.GrowsIffDisjoint | services/api/src/db/repository.ts:1489-1540 | a call adds rows iff the contract takes the event, it is unclaimed, and some endpoint matches but none that has a row of it |
| Expand.Expander.Handle | services/dispatcher/src/main.ts:248-264 | the handler decides as specified and changes nothing but through the api call |
| Expand.Expander.Drain | services/dispatcher/src/main.ts:149-179 | the loop applies one decision per message in order and counts acknowledged and terminated ones |
| Expand.DecisionIsExact | services/dispatcher/src/main.ts:247-266 | terminated iff it does not parse; acknowledged iff it parses, the api is heard, the contract takes it, and it is claimed or no matching endpoint has a row of it; and then it is claimed |
| Expand.FirstCallExpands | services/api/src/db/repository.ts:1489-1540 | the first heard call for accepted raw fields claims and acknowledges the event and gives it a row for exactly the endpoints subscribed to its `type` in its `environment_id` |
| Expand.DrainHandlesEach | services/dispatcher/src/main.ts:149-179 | each message of a batch is handled once by the api as those before it left it, and the count is the number acknowledged or terminated |
| ExpandRuns.SettledMeansDone | services/dispatcher/src/main.ts:149-179 | after every run an acknowledged event is claimed, a terminated one could never parse, any other is still with the broker |
| ExpandRuns.HandlerIsSteps | services/dispatcher/src/main.ts:248-264 | with nothing in between, the steps of one delivery do to the api and decide what the handler does, whatever becomes of the call |
| ExpandRuns.StepSettles | services/dispatcher/src/main.ts:167-176 | a message is acknowledged or terminated by the first decision to do so that reaches the broker, and by nothing else |
| ExpandRuns.NoRowTwice | services/api/src/db/repository.ts:2414-2433 | after every run, wherever the api dies, no endpoint has two rows of an event, and a claimed event's rows never change |
| ExpandRuns.ExpansionsAreDeathsAndOne | services/api/src/db/repository.ts:1503-1536 | after every run, under any redeliveries and changes of subscription, an event has been expanded as often as calls for it died after inserting rows, or once more; exactly as often while it is unclaimed with no call under way, so it then has rows iff such a call died |
| ExpandRuns.OneExpansionPerEvent | services/dispatcher/src/expand.ts:7-12 | so an event none of whose calls died after inserting rows is expanded at most once, and has no rows without a claim or a call under way |
| ExpandRuns.OrphanIsAckedIffDisjoint | services/api/src/db/repository.ts:1489-1540 | an event with rows and no claim is acknowledged on a heard call iff no matching endpoint has a row of it, and expanded again iff besides some endpoint matches |
| ExpandRuns.OrphanIsNeverAcked | services/api/src/db/repository.ts:1503-1536 | such an event is acknowledged in no run in which one of its endpoints keeps matching |
| ExpandRuns.DeathOrphans | services/api/src/db/repository.ts:2414-2433 | a run that leaves an event with rows and no claim |
| ExpandRuns.RefusedIsNeverSettled | packages/protocol/src/internal.ts:477-484 | an envelope of three strings that the request schema refuses is settled in no run |
| ExpandRuns.OneGoodDeliverySettles | services/dispatcher/src/main.ts:247-266 | one delivery with a working api leaves a message open iff the contract refuses it or the event is unclaimed and a matching endpoint has a row of it |
| Subscriptions.Membership.SubscribeChannel | services/gateway/src/membership.ts:116-131 | the channel's count goes up and a command is queued iff it was the first |
| Subscriptions.Membership.UnsubscribeChannel | services/gateway/src/membership.ts:132-144 | the count goes down and a command is queued iff it was the last; an absent key changes nothing |
| Subscriptions.Membership.SubscribeUser | services/gateway/src/membership.ts:192-200 | the same for a user's key, with the channels' counts untouched |
| Subscriptions.Membership.UnsubscribeUser | services/gateway/src/membership.ts:202-210 | the same for a user's key, with the channels' counts untouched |
| Subscriptions.Fanout.Subscribe | services/gateway/src/fanout.ts:175-188 | the count goes up and one command for both subjects is queued iff it was the first |
| Subscriptions.Fanout.Unsubscribe | services/gateway/src/fanout.ts:189-200 | a missing count is taken for 1; one command for both subjects is queued iff none is left |
| Subscriptions.CountsAreHolders | services/gateway/src/membership.ts:116-145 | both services' counts are the number of holders after any calls, also after unsubscribes of what nobody held |
| Subscriptions.MembershipIssuesEdges | services/gateway/src/membership.ts:116-145 | membership issues exactly the first-holder and last-holder commands, in order |
| Subscriptions.FanoutIssuesEdges | services/gateway/src/fanout.ts:175-200 | the fan-out issues exactly those iff every unsubscribe found a holder, and never fewer |
| Subscriptions.CommandsRunInOrder | services/gateway/src/membership.ts:116-145 | what the broker has run, followed by what is queued, is what was issued |
| Subscriptions.QueueLeadsToHolders | services/gateway/src/membership.ts:116-145 | under either policy and any interleaving, draining the queue leads to exactly the subjects of keys with holders |
| Subjects.MembershipBrokerFollows | services/gateway/src/membership.ts:172-210 | for colon-free channels, once drained, a channel's or user's subject is held iff somebody holds it |
| Subjects.MembershipSendsEdges | services/gateway/src/membership.ts:116-145 | the commands run and queued are the edges of the counts |
| Subjects.FanoutBrokerFollows | services/gateway/src/fanout.ts:175-200 | `chan:` and `revision:` agree at every moment, follow the holders once drained, and the commands are the edges iff no unsubscribe was unmatched |
| Subjects.MembershipApart | services/gateway/src/membership.ts:97-100 | the two count maps interfere iff some channel id is also some user's key |
| Subjects.MembershipSubjectsName | packages/protocol/src/membership.ts:28-40 | for colon-free channel and environment ids the two subject forms are injective and disjoint, whatever users are called |
| Subjects.MembershipCollides | packages/protocol/src/membership.ts:28-40 | a channel subject equals a user subject iff the channel is called `env:user` |
| Subjects.ChannelSubjectsSplit | packages/protocol/src/revision.ts:40-48 | the three subjects of a colon-free channel are `member`, `chan` or `revision`, a colon and the channel |
| Subjects.UserSubjectSplits | packages/protocol/src/membership.ts:35-40 | for colon-free ids a user's subject is `member`, the environment and the user, in this order |
| Subjects.RoutesByPrefix | packages/protocol/src/revision.ts:40-48 | every `chan:` subject routes to messages, every `revision:` subject to revisions, and each names one channel |
| Subjects.SlotKeyInjective | services/gateway/src/connections.ts:104-116 | a slot key names its environment, user and slot while environments hold no colon |
| Subjects.SlotKeySplits | services/gateway/src/connections.ts:115-116 | for colon-free ids a slot key is `conn`, the environment, the user and the slot's number, in this order |
| Subjects.RetentionKeyInjective | services/gateway/src/meter.ts:147-149 | a retention key names its connection and its period |
| Subjects.RetentionKeySplits | services/gateway/src/meter.ts:147-149 | a retention key of bar-free parts is the connection, a bar and the period |
| EventSubjects.EventSubjectReadsBack | packages/protocol/src/internal.ts:159-169 | a subject is named iff type and environment are given, and they are recoverable from it iff the environment has no dot and the domain is not `msg` |
| EventSubjects.MsgCollides | packages/protocol/src/internal.ts:159-169 | a type of domain `msg` has the subject of the one of domain `message` |
| EventSubjects.NamedIffUuid | packages/protocol/src/internal.ts:318-332 | an analytics subject is named iff domain and action are given and the environment id splits into five groups of 8, 4, 4, 4 and 12 hexadecimal digits |
| EventSubjects.FourTokens | packages/protocol/src/internal.ts:318-332 | an analytics subject has four tokens iff domain and action have no dot |
| EventSubjects.TenantSeesItsOwn | packages/protocol/src/internal.ts:309-332 | a tenant's filter sees a record iff it is that tenant's and its domain and action have no dot |
| EventSubjects.NobodySeesNoTenant | packages/protocol/src/internal.ts:408-426 | the record of a request without a tenant goes to the tokens `analytics`, `api`, `request` and `_none`, and no tenant's filter sees it |
| EventSubjects.StreamsAreApart | packages/protocol/src/internal.ts:152-169 | each stream's wildcard sees all of its own subjects and none of the other's |
| Signature.SignedTextIsRecoverable | services/dispatcher/src/signature.ts:30-32 | two signed texts are equal iff second and body are |
| Signature.EverySecretsSignatureIsFound | services/dispatcher/src/signature.ts:52-69 | splitting the header on commas gives one entry per secret, in order, each `v1=` and that secret's digest |
| Signature.RecipientVerifies | services/dispatcher/src/signature.ts:20-69 | a recipient that looks for `v1=` and the digest of `v1:`, the timestamp header, `:` and the body accepts iff that is the digest of one of the secrets over the body sent, so with every secret of the endpoint; and the timestamp reads as the second |

## Left out

- Redis failover, and clocks that disagree between processes: one clock, one store.
- Two operations of one connection at once, but for a release at shutdown, which may run
  beside any of them: a renewal is not in flight while its own socket closes.
- A claim straight after `releaseAll` under interleaving: `ClaimAfterReleaseAllSucceeds` is
  stated for an instant in which nobody else uses the five keys.
- Quota crossings and their notices, and the tenant's figures other than connection minutes.
- The request schema of a usage report beyond its size: ids that are not uuids and years
  that do not have four digits are refused by it, and are not produced by the gateway.
- The api's retry schedule and replay of dead letters: a row has some last attempt and moves
  only as `recordAttemptOutcome` moves it.
- ExpandRuns.OrphanIsNeverAcked: supposes that all messages with one event id carry the same
  envelope, as the outbox publishes them.
- The body of a job that lacks fields: it is taken as a job of an unknown delivery.
- `minuteOf`, which no billing path uses, and the sockets, timers, logs, health endpoints and
  shutdown order around all of this.
- HMAC itself (section 2 of RFC 2104): the digest is any function to lower-case hex.
- The zod schemas of fabric payloads and attachments, and `close` of the two subscribers.
- Failed subscribe and unsubscribe commands: the runs are those in which every command runs.
