# Bonds, relays, requests, feeds and fees of a DEX client: a verified model

This project models five stateful parts of a decentralised exchange client and
its mesh node, and proves what they promise over every input and every run.

* **Fidelity bonds** (`Bonds`, `BondTiming`, `BondLedger`, `BondRotation`,
  `TimedRotation`, `BondReserves`, `ReservePlans`, `BondImport`, `DexAccount`).
  An account keeps three lists of bonds: pending, live and expired. Postings,
  confirmations, expiries, rotations and refunds move bonds between them.
  `DexAccount` is the account object whose methods change the lists in place;
  `BondLedger` has the same steps on values, one for each critical section, and
  `TimedRotation` gives them times; over these the theorems about whole runs are
  proved, and each method is proved equal to its step.
* **The mesh node's relay cache and subscription index** (`RelayCache`,
  `Subscriptions`, `Broadcasts`).
* **Requests over a websocket connection** (`Requests`): a response, a timer, a
  failed send and the shutdown race for one entry of the handler map.
* **Order book feeds** (`BookFeeds`, `FeedChanges`, `FeedEffects`): feeds, close
  timers, subscriptions and the deletion of books, interleaved at the grain of
  the locks.
* **Relay fees** (`RelayFees`): an estimate with floors, and its inverse.

The main theorems:

* `BondLedger.RunsMoveForward` and `RunsRetireOnlyRefunded`: in every run a bond
  is in exactly one place, only moves forward, and is retired only by a refund
  or as a placeholder nobody could refund.
* `TimedRotation.RotationNeverDropsTier`: the informal argument that rotation
  keeps the tier, over every run and every instant, whatever happens between
  the critical sections of a rotation; `BondTiming.MinBondLifetimeIsExact`: the
  lifetime formula is the least one that works.
* `ReservePlans.ReserveIsBacked` and `ReserveIsLeastExactlyWhen`: the reserve is
  enough under some plan that assigns refunds to replacements, and it is the
  minimum over all plans exactly under a stated condition.
* `RelayCache.AtMostOnceExactly`, `Subscriptions.IndexMatchesHistory`,
  `Requests.CallbacksRunOnce` and `SafeExactlyWhenQuiet`,
  `BookFeeds.FeedsAreSafe`, `FeedChanges.SyncIsCleanExactlyWhen`,
  `RelayFees.ExtractIsGreatest`, `BondImport.MergePicksWinner`.

## Where code and documentation part

The model follows the code. Where the code does less than its comments or the
evident intent say, a lemma gives an input that shows it and another says
exactly when the promise holds.

* The reserve is called the minimum, and a comment says that once one refund
  comes too late, all later ones do. A refund that is too late for the first
  open replacement may be in time for the next, but the pass stops there:
  `StoppingEarlyReservesTooMuch`, `ReserveIsLeastExactlyWhen`.
* Compensation for penalties is not reduced by what has been bonded to
  compensate: `OnePenaltyCompensatedThrice`, `CompensationMatchesDeficit`.
* The limit on lock times is checked for the default lock time only, and joining
  a track is said to shorten the lock but may lengthen it:
  `MergingCanPassLimit`, `ChosenLockWithinLimit`.
* A bond that the server reports is looked up only in copies of the pending and
  live lists, so one that is locally expired ends up twice:
  `ReportCanDuplicate`, `ReportKeepsOnePlace`.
* A broadcast is distributed once only if a handler takes no more than two
  epochs between the cache and the stamp check: `SlowHandlerDistributesTwice`,
  `AtMostOnceExactly`.
* Unsubscribing does not leave the topic, and topics are never deleted:
  `UnsubscribingKeepsTopicBroadcasts`, `TopicsAreNeverForgotten`.
* A send error is documented to mean that neither callback runs. A response may
  come before the error (`ErrorNeedNotBeSilent`); neither runs exactly when the
  handler is still registered (`ErrorIsSilentExactlyWhenRegistered`).
* A new feed can miss a change between its book and its registration
  (`ChangeBeforeRegistrationIsMissed`, `RaceIsReachable`). It sees every change
  in every interleaving exactly when the market is not booked yet or no handler
  of a book message has looked its bookie up (`SyncIsCleanExactlyWhen`).

## Model

| member | source | states |
|---|---|---|
| `Bonds.CutMeasures` | client/core/bond.go:33-38 | the swap-with-last removal takes away exactly the bond at the index: every key and every record is counted once less if it was that bond's and as often otherwise |
| `Bonds.FindBond` | client/core/bond.go:1708-1719 | the index found is the first with the key, and the length if there is none |
| `Bonds.StrengthIsWhatItBuys` | client/core/bond.go:165-178 | a recorded strength counts as it is; without one the strength is the greatest number of increments the amount pays for, and nothing in an unsupported asset |
| `Bonds.StrengthGrows` | client/core/bond.go:165-178 | a list that holds every record at least as often has at least the strength |
| `BondTiming.ChainHasNoGap` | client/core/bond.go:63-122 | in every unbounded chain of bonds, each replaced once weak and confirmed within the pending buffer, some bond is confirmed and unexpired at every instant after the first confirmation |
| `BondTiming.LongEnoughLifeBringsFundsBack` | client/core/bond.go:63-122 | with a lifetime of at least the minimum, bond k is refunded no later than bond k+2 is due |
| `BondTiming.AtMostTwoOutstanding` | client/core/bond.go:63-122 | with the minimum lifetime two outstanding bonds are neighbours in the chain, so funds for two bonds are enough forever |
| `BondTiming.MinBondLifetimeIsExact` | client/core/bond.go:129-162 | funds are back in time in every admissible chain if and only if the lifetime is at least the formula's |
| `BondTiming.ChainFollowsServer` | client/core/bond.go:63-122 | a bond of the chain covers exactly while confirmed and not expired by the server, and is weak exactly when the server will have expired it a pending buffer later |
| `BondTiming.CalculateMergingLockTime` | client/core/bond.go:1551-1582 | the loop chooses the lock time that the specification chooses, with both error cases, for any four readings of the clock |
| `BondTiming.ChosenLockIsLatestTrack` | client/core/bond.go:1563-1580 | the lock time chosen is the latest among the live bonds beyond the merging threshold, and the default if and only if there is none |
| `BondTiming.JoinsLatestTrackWithTime` | client/core/bond.go:1563-1580 | a live bond is joined only if it has more than a quarter of the expiry left before it turns weak; the latest such bond is joined, and the default is used if and only if there is none |
| `BondTiming.NoLockExactlyWhen` | client/core/bond.go:1551-1562 | each error is returned exactly when the clock readings and the fixed limits say so, in closed form |
| `BondTiming.NewBondsAreStrong` | client/core/bond.go:1551-1582 | default or merged, the lock time lies strictly beyond the replacement and expiry thresholds of the same rotation |
| `BondTiming.ChosenLockWithinLimit` | client/core/bond.go:1559-1580 | the lock time respects the limit if and only if every live bond worth joining does |
| `BondTiming.MergingCanPassLimit` | client/core/bond.go:1559-1580 | a live bond for which the chosen lock time passes the limit although the default does not |
| `BondLedger.StepKeepsValid` | client/core/bond.go:386-411 | every step keeps each key in at most one place of the three lists, and every listed key known |
| `BondLedger.StepConserves` | client/core/bond.go:1660-1662 | a step changes how often a record is in the lists only by posting it, refunding it, or dropping it as a placeholder |
| `BondLedger.StepMovesForward` | client/core/bond.go:1708-1719 | a step moves a bond forward only, and retires it only if a refund named it while expired or the server expired it as a live placeholder |
| `BondLedger.StepMovesExactly` | client/core/bond.go:386-411 | every step takes every bond exactly where it should: posted to pending, confirmed to live, expired or screened to expired, dropped if a placeholder, refunded to retired, and otherwise nowhere |
| `BondLedger.RunsKeepConfirmed` | client/core/bond.go:1708-1719 | in every run every live bond is marked confirmed |
| `BondLedger.RunsMoveForward` | client/core/bond.go:591-599 | in every run each known bond is in exactly one of pending, live, expired and retired, and its phase only moves forward |
| `BondLedger.RunsRetireOnlyRefunded` | client/core/bond.go:1777-1792 | a bond that a run retires was retired by a step that refunded it or dropped it as a placeholder |
| `BondLedger.ReportKeepsOnePlace` | client/core/core.go:7493-7687 | whatever happens between copying the lists and adding a bond that the server reports and the copies lack, every bond stays in one place if and only if the bond is then unknown or retired |
| `BondLedger.RetiredBondsAreReportedSafely` | client/core/core.go:7671-7687 | a bond that was retired when the lists were copied is added safely, whatever happens in between |
| `BondLedger.ReportCanDuplicate` | client/core/core.go:7449-7451 | an account in which a reported bond ends up in two lists |
| `BondRotation.DexBondConfig` | client/core/bond.go:345-367 | the expiry threshold is strictly before the replacement threshold, assets and expiry are the server's, and whether it was connected is told |
| `BondRotation.ThresholdsFollowServer` | client/core/bond.go:345-367 | a bond is screened exactly when the server has expired it, and is weak exactly when the server will have a pending buffer later; without a configuration the lock time takes the place of the expiry |
| `BondRotation.MustPost` | client/core/bond.go:430-449 | the result is the lesser of what is missing up to target plus allowance, and what is missing to the target plus the deficit; it is zero if and only if the target is met and there is no deficit or the allowance is used up |
| `BondRotation.MustPostIsGreatest` | client/core/bond.go:430-449 | it is the greatest number that passes neither target plus allowance nor what is missing plus what is penalised |
| `BondRotation.StrongIsWhatIsNotWeak` | client/core/bond.go:386-437 | after screening, live plus pending less weak strength is the strength of the bonds beyond the replacement threshold, before and after screening; hence it is never negative |
| `BondRotation.PostingRaisesStrong` | client/core/bond.go:430-449 | posting adds exactly the bond's strength to the strong strength and leaves the live list alone |
| `BondRotation.RotationSettles` | client/core/bond.go:430-449 | repeated rotation stops, at the greater of the strong strength and the target, plus the allowance if there is a deficit; without one, after one post |
| `BondRotation.CompensationMatchesDeficit` | client/core/bond.go:437-449 | repeated rotation bonds no more than the deficit if and only if there is none, it exceeds the allowance, or that much was bonded before |
| `BondRotation.OnePenaltyCompensatedThrice` | client/core/bond.go:437-449 | one penalty with an allowance of three leads to three extra increments |
| `BondRotation.CapPosting` | client/core/bond.go:662-675 | counting down leaves the greatest number up to what must be posted that fits the limit, or zero if none does; no limit leaves it alone |
| `BondRotation.RecordedStrengthIsExact` | client/core/bond.go:1618-1631 | the recorded 32-bit strength of n increments is n if and only if n fits |
| `TimedRotation.UnexpiredBondsStayInRun` | client/core/bond.go:386-411 | no run takes away a bond before the server would expire it |
| `TimedRotation.PillarsCarryTarget` | client/core/bond.go:430-449 | the bonds that were not weak at the screening and the bond posted for it are together worth the target |
| `TimedRotation.RotationCarriesTier` | client/core/bond.go:63-122 | a rotation in full that started no longer than the pending buffer ago, and whose bond has had time to confirm, keeps the confirmed unexpired strength at the target, whatever happened since it started |
| `TimedRotation.RotationNeverDropsTier` | client/core/bond.go:63-122 | in every run, if rotations in full start at most a gap apart, post within a delay and bonds confirm within a delay, and the three fit into the pending buffer, then at every instant, from when the first rotation has had time to post and confirm until one fails to follow in time, the confirmed unexpired strength is at least the target |
| `BondReserves.CollectActive` | client/core/bond.go:273-295 | the loop lists what the specification lists |
| `BondReserves.CollectTotals` | client/core/bond.go:278-300 | the strength covered is the supported strength capped at the target, so the shortfall never underflows; the listed tiers are that plus at most one for each unsupported bond |
| `BondReserves.CollectListsBonds` | client/core/bond.go:273-295 | bonds are listed one by one in order: due at the first instant at which the server will have expired the bond a pending buffer later, for no more than its amount pays for, all but the last in full, and none left out unless the target is reached |
| `BondReserves.PayOne` | client/core/bond.go:316-336 | the inner loop pays for open tiers in place as the specification's walk does, and says when to stop |
| `BondReserves.PayIsOneStep` | client/core/bond.go:316-336 | on time-sorted tiers the walk is one step of a single counter; it ends the pass only at the first open tier, having paid for nothing |
| `BondReserves.CreditExpired` | client/core/bond.go:307-337 | the nested loops with the labelled break leave the tiers with a prefix consumed, as long as the one-counter function says |
| `BondReserves.RefundsAreMoney` | client/core/bond.go:309-314 | there is one refund for each expired bond of the asset, after the spendable delay, for the greatest number of increments its amount pays for |
| `BondReserves.ConsumeIgnoresTies` | client/core/bond.go:304-306 | any two time orders of the same refunds are credited alike |
| `BondReserves.ConsumeIgnoresTierOrder` | client/core/bond.go:301-303 | the credit does not depend on the order of the tiers |
| `BondReserves.MinReserveTiers` | client/core/bond.go:300-341 | whatever order the unstable sorts choose, the result is the same function of the lists; the expired list is left sorted, with the same bonds |
| `BondReserves.MinBondReserves` | client/core/bond.go:265-342 | the reserve is that many increments, and nothing without a target |
| `BondReserves.ReserveBounds` | client/core/bond.go:296-341 | the reserve lies between twice what is missing and that plus the strength covered, plus at most one for each unsupported bond |
| `BondReserves.ExpiredBondsOnlyHelp` | client/core/bond.go:304-337 | one more expired bond, wherever in the list, never raises the reserve |
| `ReservePlans.CreditIsAPlan` | client/core/bond.go:301-337 | there is a plan in which no refund pays more than its strength or too late, no tier is paid twice, and each tier is paid exactly what the greedy pass took off it |
| `ReservePlans.BestIsGreatest` | client/core/bond.go:301-337 | no feasible plan pays for more than a pass that skips tiers instead of stopping |
| `ReservePlans.BestIsReached` | client/core/bond.go:301-337 | some feasible plan pays for as much as that pass |
| `ReservePlans.CreditIsGreatestExactlyWhen` | client/core/bond.go:320-323 | the greedy credit is the most any plan pays for if and only if, where it stops, no refund from there on could have paid for anything |
| `ReservePlans.ReserveIsBacked` | client/core/bond.go:296-341 | the reserve is what is left to pay when the account's own expired bonds pay, none more than its amount and none for a replacement due before it can be spent |
| `ReservePlans.ReserveAndRefundsPay` | client/core/bond.go:296-341 | the reserve and what the expired bonds of the asset amount to pay for every listed replacement and twice for what the target lacks |
| `ReservePlans.ReserveIsLeastExactlyWhen` | client/core/bond.go:262-265 | the reserve is at most what every feasible plan leaves to pay if and only if stopping wastes none |
| `ReservePlans.StoppingEarlyReservesTooMuch` | client/core/bond.go:320-323 | an account for which some plan needs less than the reserve |
| `BondImport.MergeBonds` | client/core/account.go:194-219 | the loop merges as the specification does, writes what it says in order, counts the unrefunded bonds written, and stops only at a failed write |
| `BondImport.NothingUnspent` | client/core/account.go:216-222 | the count of new live bonds is zero exactly when all that was written is refunded, and the number written exactly when none is |
| `BondImport.MergePicksWinner` | client/core/account.go:202-216 | after the merge a key is represented by its proper known bond, else by the first proper imported one, else by the last imported placeholder, else by what was known |
| `BondImport.MergePrefersProper` | client/core/account.go:204-206 | a proper known bond is never altered, and a key with a proper bond on either side ends with a proper one |
| `BondImport.MergeKeepsUnique` | client/core/account.go:194-201 | unique keys stay unique even if the import repeats keys |
| `BondImport.MergeKeepsKeys` | client/core/account.go:210-214 | known bonds keep their places; nothing is added if every imported key is known |
| `BondImport.MergeTwiceIsMergeOnce` | client/core/account.go:194-219 | merging the same list again changes nothing |
| `BondImport.DatabaseFollows` | client/core/account.go:207-209 | a database that agreed with the known bonds agrees with the merged ones after the writes |
| `DexAccount.CategorizePlacesEach` | client/core/core.go:9001-9035 | every stored bond that is not refunded starts in exactly one list |
| `DexAccount.CategorizeByState` | client/core/core.go:9001-9035 | which list a stored bond starts in is decided by its refunded and confirmed flags and its lock time |
| `DexAccount.LoadedAccountIsValid` | client/core/core.go:9001-9035 | for stored bonds with distinct keys the loaded lists are a valid start of the runs, refunded bonds counting as retired |
| `DexAccount.RefundVerdict` | client/core/bond.go:467-588 | a bond counts as spent if and only if it has matured for client and wallet and was paid back by a transaction, or its coin is gone, or it has neither key nor backup, or it is prepaid and stored as refunded; the pass aborts exactly for a wallet that cannot bond |
| `DexAccount.PlaceholdersAreNeverPaidBack` | client/core/bond.go:1781-1785 | a placeholder is exactly a bond that no answer from outside pays back |
| `DexAccount.SpentExactlyWhenSettled` | client/core/bond.go:463-600 | a pass reports a key if and only if a bond of the snapshot with the key is settled |
| `DexAccount.RetiredBondsWereSettled` | client/core/bond.go:590-600 | in every run whose refunds come from passes, a bond that is retired was settled outside, or was a live placeholder that the server expired |
| `DexAccount.SettledBondsAreRetired` | client/core/bond.go:590-600 | a refund retires an expired bond if and only if its pass found it settled |
| `DexAccount.SumBondStrengths` | client/core/bond.go:165-178 | the loop computes the sum of strengths |
| `DexAccount.FilterExpired` | client/core/bond.go:386-411 | a list is split at the expiry threshold in order, and the weak part of what stays is what the replacement threshold selects |
| `DexAccount.CountIncrements` | client/core/bond.go:430-449 | compensation is what is bonded beyond the target, what must be posted is the bounded number above, and the penalties to compensate are what of it the target does not need |
| `DexAccount.CollectReposts` | client/core/bond.go:419-428 | the bonds to post again are the pending ones nobody is waiting for, in order, and none if the server was never connected |
| `DexAccount.NotWaitingMembers` | client/core/bond.go:419-428 | a bond is among those to post again if and only if it is pending and nobody waits for it |
| `DexAccount.ScreeningKeepsAmounts` | client/core/bond.go:386-411 | screening does not change what the bonds of an asset amount to |
| `DexAccount.DexAccount.BondTotal` | client/core/core.go:3198-3209 | the total is the sum over the three lists of the amounts in the asset |
| `DexAccount.DexAccount.constructor` | client/core/core.go:9001-9035 | a loaded account has each stored bond in the list its state calls for |
| `DexAccount.DexAccount.BondStateOfDEX` | client/core/bond.go:379-450 | the lists are screened, the strengths are those of the new lists, compensation, penalties to compensate and what must be posted follow from the strong strength and the server's report, and the total bonded and the bonds to post again are those of the lists |
| `DexAccount.DexAccount.RefundExpiredBonds` | client/core/bond.go:463-604 | exactly the spent keys of the snapshot are cut from the expired list as it is then; an aborted pass changes nothing |
| `DexAccount.DexAccount.PostRequiredBonds` | client/core/bond.go:630-693 | a bond is posted if and only if it is wanted, everything is ready, an increment fits and a lock time is found; it is for the greatest number of increments that fits, with that strength and the chosen lock time |
| `DexAccount.DexAccount.MakeAndPostBond` | client/core/bond.go:1618-1662 | the new record is appended to the pending list |
| `DexAccount.DexAccount.BondConfirmed` | client/core/bond.go:1704-1734 | the bond moves from pending to live, and whether it was found is told exactly |
| `DexAccount.DexAccount.BondExpired` | client/core/bond.go:1774-1810 | the bond moves from live to expired, unless it is a placeholder; whether it was found is told exactly; the reputation takes the reported tier |
| `DexAccount.DexAccount.ReserveForBonds` | client/core/bond.go:265-342 | the reserve is the function of the lists, and the account's expired list is only reordered |
| `DexAccount.DexAccount.Rotate` | client/core/bond.go:696-762 | the lists after a rotation are screened, without the spent bonds and with the new bond; one is posted exactly when due, for the greatest number of increments that fits, beyond the replacement threshold, and all bonds held stay within the limit |
| `DexAccount.RotationIsARun` | client/core/bond.go:696-762 | a rotation that is not interrupted is its critical sections in a row, each enabled in the timed runs, and is in full if and only if the bond is for all that is required |
| `RelayCache.RelayNode.SkipRelay` | tatanka/client_messages.go:561-570 | a message is skipped if and only if it is remembered, and is remembered from then on |
| `RelayCache.RelayNode.CleanRelays` | tatanka/tatanka.go:398-417 | the cleanup loop forgets exactly the entries older than a minute |
| `RelayCache.RelayNode.HandleBroadcast` | tatanka/client_messages.go:624-665 | a broadcast is distributed if and only if it is not remembered and its payload, sender and stamp are acceptable; a client's goes to the other nodes too, and ends the subscription it names if the distribution went well |
| `RelayCache.StepKeepsInv` | tatanka/client_messages.go:624-650 | every step keeps every distributed message covered: still remembered, or too old to be accepted again |
| `RelayCache.AtMostOnceExactly` | tatanka/tatanka_messages.go:264-286 | every run distributes every message at most once if and only if no handler takes longer than two epochs between cache and stamp check |
| `RelayCache.RunIsFair` | tatanka/client_messages.go:624-650 | in every run exactly the messages that parse, name a topic, come in the sender's own name and are stamped within 15 seconds are distributed, and what the cache remembers was given to a handler |
| `RelayCache.SlowHandlerDistributesTwice` | tatanka/tatanka.go:398-417 | for every greater latency, a run that distributes a message twice |
| `Subscriptions.Index.StoreSubscription` | tatanka/client_messages.go:378-414 | topic and subject are created as needed and the peer is entered in both |
| `Subscriptions.Index.SetSubscriptions` | tatanka/client_messages.go:104-116 | every listed pair is stored |
| `Subscriptions.Index.Unsubscribe` | tatanka/client_messages.go:520-556 | the peer leaves the subject, or all subjects; empty subjects go; every error case leaves the index alone |
| `Subscriptions.Index.HandleClientDisconnect` | tatanka/tatanka.go:713-749 | the client and every entry of it are removed, and the topics it had joined are returned |
| `Subscriptions.Index.Distribute` | tatanka/client_messages.go:574-620 | exactly the connected subscribers of the subject, or of the topic, are reached; unknown topics and subjects are told |
| `Subscriptions.IndexMatchesHistory` | tatanka/client_messages.go:378-556 | after every history a peer is under a subject if and only if it wants it, and under a topic if and only if it has joined it, and subjects' sets are within their topics' |
| `Subscriptions.TargetsMatchHistory` | tatanka/client_messages.go:590-618 | a broadcast to a subject is for exactly the peers that want it, and one to the topic for exactly those that have joined it |
| `Subscriptions.StoringAddsListed` | tatanka/client_messages.go:104-116 | storing a list adds the peer to exactly the subjects on it |
| `Subscriptions.FlattenMembers` | tatanka/client_messages.go:104-116 | every subject of every listed topic is on the list, and nothing else |
| `Subscriptions.ExistenceMatchesHistory` | tatanka/client_messages.go:378-556 | which topics and subjects exist, by the history: a subject goes only when a peer of the topic unsubscribes and leaves nobody else |
| `Subscriptions.UnsubAnswers` | tatanka/client_messages.go:520-556 | what a client is told when it unsubscribes, by the history |
| `Broadcasts.BroadcastEndsSubscription` | tatanka/client_messages.go:655-662 | a broadcast that ends a subscription ends exactly the sender's own: all subjects of the topic, or the one named |
| `Subscriptions.DisconnectLeavesNoTrace` | tatanka/tatanka.go:713-727 | after a disconnect the peer is in no set of the index |
| `Subscriptions.TopicReachesSubjects` | tatanka/client_messages.go:590-618 | a topic-wide broadcast reaches whoever a subject broadcast would reach |
| `Subscriptions.UnsubscribingKeepsTopicBroadcasts` | tatanka/client_messages.go:532-554 | unsubscribing from a topic ends every subject, and leaves topic-wide broadcasts as they were |
| `Subscriptions.TopicsAreNeverForgotten` | tatanka/client_messages.go:520-556 | no step removes a topic |
| `Requests.StepKeepsInv` | client/comms/wsconn.go:734-773 | every step keeps one outcome for each request and keeps earlier requests with the same id unable to touch the map |
| `Requests.CallbacksRunOnce` | client/comms/wsconn.go:680-773 | in every interleaving the two callbacks together run at most once, exactly once if the send succeeded and the request has left the map, and never if the sender dropped it |
| `Requests.CallbacksMatchEvents` | client/comms/wsconn.go:466-773 | in every run the response callback is started, once, if and only if a response came while the request was registered, and the expire callback, once, if and only if its own timer or the drain did |
| `Requests.StepRuns` | client/comms/wsconn.go:466-773 | a callback is run only by the event that runs it |
| `Requests.TimerOrDrainSettles` | client/comms/wsconn.go:596-605 | a request that was sent has had exactly one callback started once its timer's function has run or the drain is done |
| `Requests.DroppedStaysSilent` | client/comms/wsconn.go:720-732 | once the failed-send path has taken a registered handler back, neither callback ever runs, in every continuation |
| `Requests.ErrorIsSilentExactlyWhenRegistered` | client/comms/wsconn.go:720-732 | after a send error neither callback runs if and only if the request is still registered when the sender takes the handler back |
| `Requests.ErrorNeedNotBeSilent` | client/comms/wsconn.go:680-732 | a run in which the send reports an error and the response callback is still going to run |
| `Requests.SafeExactlyWhenQuiet` | client/comms/wsconn.go:744-760 | reusing an id keeps all promises in every continuation if and only if no earlier request with it can still touch the map |
| `Requests.StolenHandler` | client/comms/wsconn.go:734-773 | for every other id, a continuation in which a promise is broken |
| `Requests.WsConn.LogRequest` | client/comms/wsconn.go:744-760 | the request is registered with an armed timer |
| `Requests.WsConn.RespHandler` | client/comms/wsconn.go:764-773 | the handler is taken out once and its timer stopped |
| `Requests.WsConn.Expire` | client/comms/wsconn.go:734-740 | the handler is deleted, and whether there was one is told |
| `Requests.WsConn.HandleResponse` | client/comms/wsconn.go:465-482 | the response callback is started if and only if there is a handler |
| `Requests.WsConn.DoExpire` | client/comms/wsconn.go:748-758 | the expire callback is started if and only if the id is still in the map |
| `Requests.WsConn.TakeBack` | client/comms/wsconn.go:720-732 | a failed send takes the handler out so that neither callback runs |
| `Requests.WsConn.Shutdown` | client/comms/wsconn.go:596-605 | the drain loop runs the expire callback of every handler left, and leaves the map empty |
| `BookFeeds.StepKeepsInv` | client/core/bookie.go:224-508 | every step keeps registered feeds open and with the booked bookie, booked markets subscribed, and bookies without feeds on their way to be closed |
| `BookFeeds.FeedsAreSafe` | client/core/bookie.go:224-508 | in every interleaving no closed channel is sent on or closed again, a bookie with feeds is the booked one, a booked market was last subscribed to, every feed starts with the book, and a booked market without feeds is about to be closed |
| `FeedEffects.StepIsExact` | client/core/bookie.go:224-360 | every event puts on a feed's channel, closes and unregisters exactly what it should: updates of its bookie unless it blocks, candles it asked for, closing with its market or with all |
| `FeedEffects.StepIsQueued` | client/core/bookie.go:317-347 | timers run from when they are set until they fire or are stopped, and what an event leaves to be done later is done once |
| `FeedEffects.StrayExactlyWhen` | client/core/bookie.go:407-508 | in every run a market without a book was last subscribed to exactly when its book could not be built or all books were forgotten, and nothing since has ended that |
| `FeedEffects.StopEndsSubscription` | client/core/bookie.go:486-508 | stopping a market without feeds ends its subscription and its book, with feeds it changes neither, and no other market is concerned |
| `FeedChanges.OpensCleanExactlyWhen` | client/core/bookie.go:434-447 | once a sync has its bookie, its feed sees every change in every interleaving up to its registration if and only if no handler has looked the bookie up |
| `FeedChanges.SyncIsCleanExactlyWhen` | client/core/bookie.go:407-450 | the same as a caller can tell beforehand: the feed sees every change in every interleaving if and only if the market is not booked or no handler has looked its bookie up |
| `FeedChanges.ChangeBeforeRegistrationIsMissed` | client/core/bookie.go:613-636 | from every state with a looked-up handler and a sync between copying the book and registering, a run after which the new feed has missed a change |
| `FeedChanges.RaceIsReachable` | client/core/bookie.go:407-450 | such a state is reached: one feed, one handler that has looked the bookie up, and a second feed can miss a change |
| `FeedChanges.RegisteredFeedKeepsUp` | client/core/bookie.go:350-360 | from a state in which a feed has seen every change, after every run it still has if it is registered and never blocked |
| `FeedChanges.CleanFeedSeesEverything` | client/core/bookie.go:350-450 | a feed opened while no handler had looked the bookie up sees every change for as long as it is registered and does not block |
| `BookFeeds.Connection.CloseFeeds` | client/core/bookie.go:251-259 | every channel of the bookie is closed and the feeds forgotten; closing a closed one is a panic |
| `BookFeeds.Connection.Send` | client/core/bookie.go:350-360 | exactly the feeds that do not block get the message; sending on a closed channel is a panic |
| `BookFeeds.Connection.BeginSync` | client/core/bookie.go:407-440 | the market's bookie is found or created by subscribing, with every error case |
| `BookFeeds.Connection.NewFeed` | client/core/bookie.go:224-248 | the new feed is registered and starts with the book |
| `BookFeeds.Connection.ForgetFeed` | client/core/bookie.go:317-347 | the feed is forgotten, and the last one leads to a timer |
| `BookFeeds.Connection.CheckFeeds` | client/core/bookie.go:329-341 | the timer's function, which stopping the timer cannot recall, has the market stopped if and only if the bookie has no feeds |
| `BookFeeds.Connection.StopMarket` | client/core/bookie.go:486-508 | the market is unsubscribed and forgotten unless its bookie has feeds |
| `BookFeeds.Connection.CloseMarketFeeds` | client/core/account.go:19-38 | stopping the connection closes a market's feeds and its timer |
| `BookFeeds.Connection.CloseAllBooks` | client/core/account.go:326-340 | a new certificate closes every feed and timer and forgets every book |
| `RelayFees.ExtractIsGreatest` | evmrelay/types.go:208-234 | an estimate is within a fee if and only if its tip is at most the one extracted from the fee |
| `RelayFees.ExtractInvertsEstimate` | evmrelay/types.go:171-234 | extraction inverts estimation for every tip, and brackets every fee |
| `RelayFees.EstimateIsTight` | evmrelay/types.go:171-203 | apart from the tips paid per gas, ten estimates lie within nine gas units and nine of 22 base fees per gas and 13 L1 fees |
| `RelayFees.ValidationIsTight` | evmrelay/types.go:29-203 | the accepted fee is tight in the same way for 20 and 12 |
| `RelayFees.EstimateCoversLaterFees` | evmrelay/types.go:29-203 | an estimate covers the validation fee at any later base and L1 fee within the ratio of the multipliers, despite the floors |
| `RelayFees.MoreRedemptionsCostMore` | evmrelay/types.go:171-192 | more redemptions never cost less gas unless the 64-bit gas overflows |
| `RelayFees.GasPerRedemption` | evmrelay/types.go:171-192 | a batch of one costs the gas of one redemption and each further one exactly the addition, below the 64-bit bound |

## Left out

- BondReserves.MinBondReserves: amounts, strengths and times are unbounded integers; the 64-bit wrap-around of `LockTime - bondExpiry - buffer` and of the sums is not modelled.
- DexAccount.DexAccount.Rotate: runs its critical sections without interruption; what may happen between them is what the runs of `TimedRotation` range over. Reposting of pending bonds and the update of reserves do not touch the lists; the wallet, the database, the clock and the server are parameters.
- DexAccount.DexAccount.RefundExpiredBonds: the database writes, wallet calls and notifications of a refund are parameters; their order is not modelled.
- TimedRotation.RotationNeverDropsTier: the interval between rotations, the time to post and the time to confirm enter as hypotheses on the run; the ticker and the server are not modelled.
- BookFeeds.Connection.BeginSync: resubscription after a reconnect is not modelled, and the transient subscription of `Core.Book` is one step.
- Requests.WsConn.HandleResponse: the order of messages through the overflow buffer of the read loop is not modelled.
- RelayCache.RelayNode.HandleBroadcast: the same payload sent by a client and by a relaying node has two digests and counts as two messages; digests are taken to be injective.
- BondImport.MergeBonds: what follows the merge (reconnecting when there are new unspent bonds) is not modelled.
- Aliasing between slices is not modelled: lists are values that the account's fields hold. Only the reserve's list of tiers is an array changed in place.
- Redeeming a prepaid bond adds to the live list directly and is not a step of the runs.
- `updateBondReserves` and `UpdateBondOptions`: totals over wallets and accounts.
- `Topic.unsubUser`: nothing calls it.
- Order book contents and candle caches, match status conflicts, notifications, floating-point display and configuration: not modelled.
