# Verification of the keepers, the pricing model and the money arithmetic

This project models, in Dafny, the stateful and numerical core of a prediction-market system:

- the match keeper that creates, settles and voids markets and carries failed settlements through
  retries, housekeeping passes, crashes and reloads (`Programs.dfy`, `Keeper*.dfy`, `Agent.dfy`);
- the sharp-move detector over pool odds (`OddsTracker.dfy`, `OddsSources.dfy`);
- the reproducible pricing model: the seeded generator, the seed hash and seed text, the canonical snapshot text,
  the Monte Carlo price, the quote, the order of prices across lines and the calibration report
  (`Rng.dfy`, `BitXor.dfy`, `HashSpread.dfy`, `HashValues.dfy`, `Seed.dfy`, `Snapshot.dfy`, `Text.dfy`, `Pricing.dfy`,
  `PriceMean.dfy`, `PriceOrder.dfy`, `Calibration.dfy`);
- the weekly and the interval price keepers with their calendar, observation probe and void rule
  (`Calendar.dfy`, `WeekKeeper.dfy`, `WeekLoop.dfy`, `PriceFeed.dfy`, `PriceMarkets.dfy`, `PriceLoop.dfy`,
  `PriceOracles.dfy`);
- payouts, the settled-position history, the bond sweep and the packing of settlement transactions
  (`Payout.dfy`, `History.dfy`, `HistoryMeaning.dfy`, `BondSweep.dfy`, `SettlePacking.dfy`).

Objects the program updates in place are classes (`Agent.Agent`, `OddsTracker.Tracker`, `Rng.Mulberry32`,
`PriceMarkets.Context`, `PriceLoop.PriceKeeper`, `WeekLoop.Keeper`, `History.HistoryStore`, `BondSweep.Sweeper`,
`SettlePacking.SettleTable`). Each of their methods is proved equal to a step function on plain values, and the theorems
about all runs are lemmas about those step functions. The environment (proof service, RPC reads, transaction fates, clocks,
price feed) enters as parameters, so every "for all runs" statement ranges over every behaviour of it. A transaction may
land, be lost, or land while the sender sees an error, and other people may send any transaction between two steps.

## How the parts fit

`Programs` holds the on-chain side that every keeper meets: a market is bound to an oracle, is absent, open, settled to an
outcome or void, and may have a resolution receipt with its outcome and its validator. `Programs.Execute` keeps the programs'
guards: anybody can make the one receipt, by any validator; it settles the market only to its own outcome and only when its
validator is the market's oracle; the authority can settle an open market without one.

`Keeper.State` holds the tracked open markets, the pending settlements, the persisted file, the chain and the ghost
trace of submitted transactions. `Keeper.Step` is one action, one retry pass, one housekeeping pass (either pass possibly cut
short by the process dying), a restart, a crash in the middle of an action, or somebody else's transaction.
`Keeper.Run` folds steps, and `Keeper.Boot` is the empty start.

`PriceMarkets` is what the two price keepers share: creating or adopting, settling and voiding one market, over a chain of
accounts with their bound oracle and closing time, with a ghost trace of sent bundles and voids. `PriceLoop` and `WeekLoop`
put the two loops around it.

The pricing model is exact in the 32-bit words, bit-vectors in the generator's mix and numbers below 2^32 with an exclusive
or of their own in the hash, and uses `real` for doubles. `exp` is any function
that sends negative numbers into (0, 1), and the square root is any function that is non-negative on non-negative numbers
(`Pricing.IntervalIsNormal` adds the defining property of a root where it is needed). The text of a number is any function
from numbers to text.

## Where the code and its comments disagree, and what does not hold

- A market is found by kind and match id alone, so two lines of one match share a slot. Everything owed in a slot is owed to its
  first market (`KeeperRuns.RunKeepsTracked`), so giving up always acts on the market that the entry names
  (`KeeperLiveness.GivingUpEndsIff`). But a settlement acts on its own line's market exactly when no other line leads the slot
  (`KeeperRuns.ActsOnOwnLineIff`), and settles the market it acts on to the truth exactly unless the total lies between the two
  lines (`KeeperChain.SettledRightIff`). When the proof is late at the end of a match of four goals, the claim of "over 4"
  replaces that of "over 3" under the first market and settles "over 3" to NO; the second market is owed nothing
  (`KeeperCases.SecondLineIsBookedOnTheFirst`, `KeeperCases.SecondLineSettlesTheFirst`). An owed claim is exchanged for another
  only when an event asks for a settlement of its slot (`KeeperClaims.ClaimKeptUnlessAsked`).
- A receipt is for ever, and only one of the claim's outcome by the market's oracle lets the claim settle
  (`KeeperChain.SettleSucceedsIff`, `KeeperChain.SplitAttemptsSettleIff`). A market with any other receipt is never settled by the
  claim, whatever lands later, short of the authority's override (`KeeperAccounts.BarredNeverSettles`,
  `KeeperAccounts.ForeignReceiptNeverSettles`). This happens when a final score is corrected after a half-done split
  (`KeeperCases.CorrectedScoreIsBarred`), and when somebody resolves a fresh market by a validator of theirs
  (`KeeperCases.ForeignResolveBlocks`).
- After a split attempt has left a receipt, an attempt whose bundle fits one transaction can never succeed
  (`KeeperChain.SettleSucceedsIff`; a run that gets there is `KeeperCases.WholeAfterSplitFails`).
- A bundle that reverts is said to leave its market open for retry (`apps/agent/src/loop.ts:640-641`). It is thrown, so no attempt
  is booked, and a first one is not retried at all (`KeeperChain.FailedBundleIsNotBooked`).
- A reload tracks the pending markets and no others, so every open market that owes nothing is forgotten
  (`KeeperRuns.ReloadTracksOnlyPending`).
- Settlement is called proof-gated. What this keeper settles is (`KeeperChain.RunIsProofGated`), and so is every market that the
  authority leaves alone (`KeeperAccounts.SettledByProof`); the authority's override needs no receipt
  (`KeeperAccounts.OverrideNeedsNoProof`).
- The bound of 18 stored attempts needs retries to come from the retry pass: a settlement asked for n times by events is stored
  with n attempts (`KeeperCases.AttemptsAreUnbounded`; the exact condition for one re-booking is
  `KeeperDeadlines.RequeueOnScheduleIff`).
- A create that reverts because the market exists is meant to count as success, by the words "already in use" or "0x0" in the
  error. The error carries neither, so it is rethrown; `KeeperLiveness.CreateEffect` says exactly when a create succeeds.
- The settlement probe is described as finding the earliest in-window observation. It finds some in-window observation
  exactly when there is one and the feed had begun by the first probe (`PriceFeed.ProbeIsComplete`, `PriceFeed.LateFeedFails`),
  and the earliest exactly when, besides, no later one was published before the first probe at or after it
  (`PriceFeed.EarliestIff`, `PriceFeed.NotAlwaysEarliest`).
- A price market that becomes final behind the keeper's back is never let go of when it has an observation, because its bundle
  reverts for ever and its status is not read again. This happens when the keeper's own bundle lands unseen
  (`PriceMarkets.UnseenBundleSpends`). The interval keeper then carries it for ever
  (`PriceLoop.SpentMarketIsCarriedForEver`), and the weekly keeper opens no further week until it is restarted
  (`WeekLoop.SpentMarketBlocksForEver`). The exact conditions are `PriceLoop.TickReleasesIff` and `WeekLoop.GraceEndsTheWindowIff`.
- Both price keepers forget a market before its void transaction is sent. If that one is lost, or comes before the program's
  own grace period is over, the market stays open with nobody tracking it (`PriceMarkets.StrandsIff`, `PriceLoop.LostVoidStrands`),
  and the keeper never comes back to it (`PriceLoop.StrandedStays`).
- A create that lands while the weekly keeper sees an error is not tracked. A later idle tick makes another market of the
  same week exactly when its line is new on chain (`WeekLoop.TickCreatesIff`, `WeekLoop.LaterMarketsHaveNewLines`,
  `WeekLoop.UnseenLandingDuplicates`).
- The comment on a quote promises `bid <= fair <= ask`. With inventory the skew can push the bid above, or the ask below, the
  fair value. `Pricing.QuoteBracketsIff` gives the exact condition, `Pricing.AskBelowFair` an input with the default parameters;
  `Pricing.NeutralQuote` shows the promise without inventory.
- More inventory of YES should never raise the quote, but the fallback branch breaks this: `Pricing.LongerMakerIff` is the
  exact condition, `Pricing.LongerMakerCanQuoteHigher` an input with the default parameters.
- A higher line should never cost more. It does not on one stream of draws (`Pricing.HitsMonotone`), but the threshold is part
  of the seed. Two lines that the next event decides are priced in order by every generator exactly when their seeds agree or
  no event can come; otherwise `PriceOrder.OrderHoldsIff` has a generator that prices the higher line above the lower one.
- An atomic settlement is meant to be preferred whenever the lookup table makes it fit. `SettlePacking.AtomicIsPassedOverIff` is
  the exact condition under which the bundle is split instead, `SettlePacking.AtomicIsPassedOver` an input. A split half can
  also take the table without need (`SettlePacking.HalfTakesTableNeedlesslyIff`, `SettlePacking.HalfTakesTableNeedlessly`).
- The week's label is that of ISO 8601 exactly outside the years 0 to 99, to which `Date.UTC` adds 1900
  (`Calendar.LabelIsIsoIff`).

## Model

| member | source | states |
|---|---|---|
| KeeperProofs.PutIsUpdate | apps/agent/src/loop.ts:751-752 | storing an entry replaces exactly the entry of its key and keeps keys distinct |
| KeeperProofs.DeleteIsRemoval | apps/agent/src/loop.ts:386-389 | deleting a key removes exactly its entry |
| KeeperProofs.ReloadRestores | apps/agent/src/loop.ts:793-835 | a reload restores exactly the entries with a market address and match id, each with its own attempts and enqueue time, and tracks every one; nothing is lost if and only if all entries are of that kind |
| KeeperProofs.RowIsLoaded | apps/agent/src/loop.ts:799-821 | a row of the file counts exactly when it names a market and a match; missing attempts are nought, missing times are now; a market it adds to the tracked ones is that of the row |
| KeeperProofs.RestartKeepsBooks | apps/agent/src/loop.ts:793-854 | a crash and reload leaves pending map and file unchanged and every pending market tracked |
| KeeperRuns.SettleCases | apps/agent/src/loop.ts:379-391 | a settlement ends in one of three ways: nothing booked, booked as settled and removed everywhere, or booked for retry under its own address |
| KeeperRuns.EnqueueEffect | apps/agent/src/loop.ts:718-767 | an enqueue touches only its own key, keeps the first enqueue time, gives up past eight hours and persists the result |
| KeeperRuns.StepKeepsBooks | apps/agent/src/loop.ts:365-419 | every step keeps distinct keys and the file equal to the in-memory map |
| KeeperRuns.RunKeepsBooks | apps/agent/src/loop.ts:718-854 | over every run the file equals the in-memory map, and a crash at any point restores exactly that map |
| KeeperRuns.RunKeepsTracked | apps/agent/src/loop.ts:533-893 | over every run from an empty keeper, with any number of lines on a match, each pending settlement is owed to the first tracked market of its (kind, match id), so it is tracked and alone in its slot |
| KeeperRuns.VoidKeepsTrackedIff | apps/agent/src/loop.ts:973-1023 | a void keeps every pending market tracked exactly when the address it acts on owes nothing or is tracked a second time |
| KeeperRuns.ActsOnOwnLineIff | apps/agent/src/loop.ts:539-543 | in every reachable state a settlement for a tracked line acts on that line's market exactly when no other line of the slot is tracked before it |
| KeeperRuns.ReloadTracksOnlyPending | apps/agent/src/loop.ts:793-835 | after a reload exactly the markets that owe a settlement are tracked |
| KeeperDeadlines.StepAccounts | apps/agent/src/loop.ts:365-419 | in one step a pending entry stays with its enqueue time and no fewer attempts, or its market is settled, or eight hours have passed; final outcomes and receipts never change |
| KeeperDeadlines.NothingDroppedSilently | apps/agent/src/loop.ts:718-893 | the same over every run: no owed settlement disappears before its deadline unless its market is settled |
| KeeperClaims.ClaimsComeFromEvents | apps/agent/src/loop.ts:718-767 | over every run from an empty keeper each pending claim is one that an event asked for |
| KeeperClaims.ClaimKeptUnlessAsked | apps/agent/src/loop.ts:718-767 | over every run an owed claim is not exchanged for another unless an event asks for a settlement of its slot |
| KeeperDeadlines.HousekeepPassClears | apps/agent/src/loop.ts:864-893 | after a complete housekeeping pass no entry that was over eight hours old remains |
| KeeperDeadlines.DelaysGrow | apps/agent/src/loop.ts:111-112 | delays never decrease, lie within 5 and 30 minutes, and are 30 minutes from the fourth attempt on |
| KeeperDeadlines.SumDelayValue | apps/agent/src/loop.ts:718-741 | closed form of the total delay of n attempts |
| KeeperDeadlines.RequeueOnSchedule | apps/agent/src/loop.ts:718-741 | re-booking a due entry keeps its next attempt at or after the sum of its delays and its count at most 18 |
| KeeperDeadlines.RequeueOnScheduleIff | apps/agent/src/loop.ts:718-741 | a re-booked entry is on schedule exactly when it had fewer than 18 attempts and its delays had run out |
| KeeperDeadlines.EighteenIsTight | apps/agent/src/loop.ts:111-113 | the delays of 17 attempts fit into eight hours and those of 18 do not |
| KeeperDeadlines.RunKeepsSchedule | apps/agent/src/loop.ts:718-893 | over every run from an empty keeper whose retries come from the passes, stored attempts never exceed 18 and no attempt is stored ahead of schedule |
| KeeperChain.RunIsProofGated | apps/agent/src/loop.ts:642-671 | over every run a lone settle transaction goes only to a market whose receipt exists, no market is resolved twice by this keeper, and every market that a landed transaction of this keeper settled carries the receipt of its outcome by its own oracle |
| KeeperChain.SettleSucceedsIff | apps/agent/src/loop.ts:642-671 | a settlement whose proof was fetched reports success exactly when the market is open, its receipt is of the same outcome by its own oracle or absent, the packing suits it, and the transactions land |
| KeeperChain.SettledRightIff | apps/agent/src/loop.ts:533-671 | a settlement that makes its own receipt settles the market it acts on to the truth about that market's line exactly unless the proved total lies between that line and the settlement's own |
| KeeperChain.PutOffIff | apps/agent/src/loop.ts:573-640 | a settlement of a tracked market is put off for a retry exactly when credentials, sequence number, statistic or the proof itself is missing |
| KeeperChain.FailedBundleIsNotBooked | apps/agent/src/loop.ts:379-391 | a settlement whose proof was fetched and whose bundle fails is thrown and leaves pending map, file and tracked markets as they were |
| KeeperChain.SplitResumes | apps/agent/src/loop.ts:648-671 | with a receipt of the same outcome by the market's oracle a split attempt sends the settle transaction alone, settles the market to the claimed outcome and clears the pending entry |
| KeeperChain.SplitAttemptsSettleIff | apps/agent/src/loop.ts:648-671 | over any sequence of split attempts the market is settled to the claimed outcome if and only if its receipt is of that outcome by its own oracle, or absent, and some attempt's settle transaction was reached after a landed resolve and landed |
| KeeperAccounts.SettledByProof | programs/market/src/lib.rs:373-411 | over every run in which the authority leaves a market alone, it is settled only with a receipt of its outcome by its own oracle |
| KeeperAccounts.OverrideNeedsNoProof | programs/market/src/lib.rs:343-371 | the authority's override settles an open market without a receipt |
| KeeperAccounts.BarredNeverSettles | programs/market/src/lib.rs:685-717 | an open market with a receipt of another outcome or validator is never settled to that outcome over any later run, unless overridden |
| KeeperAccounts.ForeignReceiptNeverSettles | programs/settlement/src/lib.rs:72-152 | an open market with a receipt by a validator other than its oracle is never settled at all over any later run, unless overridden |
| KeeperLiveness.CreateEffect | apps/agent/src/loop.ts:444-531 | a create always tracks the derived address; it succeeds exactly when it is a dry run, the lookup answers for an existing account, or an absent account's create is seen to land; an existing account is left alone |
| KeeperLiveness.RetryPassSettlesTheDue | apps/agent/src/loop.ts:769-791 | in every reachable state a retry pass settles each due entry whose proof is valid, whose account has no unsuitable receipt and whose transactions land, whatever happens to the other entries |
| KeeperLiveness.GivingUpEndsIff | apps/agent/src/loop.ts:864-893 | giving up on an open market, with a void that takes effect, ends that market exactly when the entry is owed to the first market of its slot |
| KeeperLiveness.GivingUpEndsTheMarket | apps/agent/src/loop.ts:864-893 | so in every reachable state giving up on a pending settlement ends its own market |
| KeeperGiveUp.HousekeepPassEndsIff | apps/agent/src/loop.ts:864-893 | in every reachable state a housekeeping pass ends the open market of an aged entry settled to the claim exactly when the last attempt's proof is built and its bundle takes effect, void exactly when it does not and the void takes effect, and drops the entry |
| KeeperGiveUp.HousekeepPassSettlesTheAged | apps/agent/src/loop.ts:864-883 | so an aged entry whose last attempt works is settled to its claim and no longer owed, not voided |
| KeeperCases.SecondLineIsBookedOnTheFirst | apps/agent/src/loop.ts:533-571 | run with two lines on a match and a late proof: the second line's settlement is booked under the first market in place of the first's |
| KeeperCases.SecondLineSettlesTheFirst | apps/agent/src/strategy.ts:174-209 | and with a total of four the next retry settles "over 3" to NO by the claim of "over 4", the second market staying open and unowed |
| KeeperCases.WholeAfterSplitFails | apps/agent/src/loop.ts:642-671 | run that leaves a receipt, after which no attempt that fits one transaction settles the market or changes the chain |
| KeeperCases.CorrectedScoreIsBarred | packages/txline/src/normalizer.ts:76-90 | run with a half-done split, after which the claim of a corrected score never settles the market |
| KeeperCases.ForeignResolveBlocks | programs/settlement/src/lib.rs:72-152 | run in which somebody resolves a fresh market by another validator, after which it is never settled by proof |
| KeeperCases.AttemptsAreUnbounded | apps/agent/src/loop.ts:718-741 | run of n events that stores n attempts, off schedule when n exceeds 18 |
| Agent.Agent.constructor | apps/agent/src/loop.ts:793-800 | a new process starts with empty memory on the existing disk and chain |
| Agent.Agent.SubmitSignedTx | apps/agent/src/loop.ts:421-442 | one submitted transaction, including the one that lands unseen |
| Agent.Agent.FindMarket | apps/agent/src/loop.ts:539-543 | the loop finds the first market of the same kind and match id |
| Agent.Agent.IsTracked | apps/agent/src/loop.ts:769-791 | the loop answers whether an address is tracked |
| Agent.Agent.CreateMarket | apps/agent/src/loop.ts:444-531 | the method's new state and outcome are the create step |
| Agent.Agent.SendBundle | apps/agent/src/loop.ts:648-671 | sends the whole bundle, or resolve then settle, or settle alone when the receipt exists |
| Agent.Agent.SettleMarket | apps/agent/src/loop.ts:533-697 | the method's new state and outcome are the settle step |
| Agent.Agent.VoidMarket | apps/agent/src/loop.ts:973-1023 | the method's new state and outcome are the void step |
| Agent.Agent.PersistPendingSettlements | apps/agent/src/loop.ts:837-854 | the file becomes the rows of the in-memory map, nothing else changes |
| Agent.Agent.EnqueueSettlementRetry | apps/agent/src/loop.ts:718-767 | the method's new state is the enqueue step |
| Agent.Agent.ExecuteAction | apps/agent/src/loop.ts:365-419 | runs the action; only a returned failure with an address is queued, a thrown one is not |
| Agent.Agent.EnsureTracked | apps/agent/src/loop.ts:769-791 | re-tracks the market of a pending entry that is not tracked |
| Agent.Agent.ProcessPendingSettlements | apps/agent/src/loop.ts:769-791 | the loop over a snapshot of the map is the retry pass |
| Agent.Agent.HousekeepPass | apps/agent/src/loop.ts:864-893 | the loop over a snapshot of the map is the housekeeping pass |
| Agent.Agent.LoadPendingSettlements | apps/agent/src/loop.ts:793-835 | the loop over the file's rows is the load step |
| OddsTracker.WindowHoldsAtMost61 | apps/agent/src/oddsTracker.ts:32-56 | at most 61 stored points fall into the 60 s look-back |
| OddsTracker.SameBase | apps/agent/src/oddsTracker.ts:58-68 | the newest 240 points have the same base point as the whole history |
| OddsTracker.RecordRefines | apps/agent/src/oddsTracker.ts:43-85 | one recorded call keeps the capped detector in step with the unbounded one |
| OddsTracker.ReplayRefines | apps/agent/src/oddsTracker.ts:43-85 | for every sequence of calls the capped detector shows the newest 240 points and the newest 40 shifts of the unbounded one |
| OddsTracker.RecordDebounces | apps/agent/src/oddsTracker.ts:58-85 | one recorded call keeps every reported shift genuine and shifts of one market a window apart |
| OddsTracker.ReplayDebounces | apps/agent/src/oddsTracker.ts:58-85 | the same for every sequence of calls: a shift joins two recorded points, moves 5 % or more, starts at the oldest point of its window, and comes at most once a minute per market |
| OddsTracker.RecordIsVigilant | apps/agent/src/oddsTracker.ts:43-85 | one recorded call with a sharp move finds or makes a shift within the last window |
| OddsTracker.ReplayIsVigilant | apps/agent/src/oddsTracker.ts:43-85 | for every sequence of calls no sharp move goes unreported for a whole window |
| OddsSources.RecordStoresIff | apps/agent/src/oddsTracker.ts:43-56 | a call becomes the last point of its market, with the YES share of its pools, exactly when its total is positive and a second has passed since the last one; titles follow, other markets keep their points |
| OddsSources.ReplaySourced | apps/agent/src/oddsTracker.ts:43-85 | over every sequence of calls, with or without caps, every point is the YES share at some call of its market and every shift joins two calls |
| OddsSources.EverythingIsSourced | apps/agent/src/oddsTracker.ts:43-85 | the same from an empty detector as built; a shift spans at most 60 s and 5 % or more, carries the later call's title, and is up exactly when the YES pool's share grew between its calls |
| OddsTracker.Tracker.constructor | apps/agent/src/oddsTracker.ts:36-42 | starts empty |
| OddsTracker.Tracker.Record | apps/agent/src/oddsTracker.ts:43-56 | the in-place update is the capped recording step, and the caps hold |
| OddsTracker.Tracker.FindBase | apps/agent/src/oddsTracker.ts:58-68 | the scan returns the oldest point of the window, or the first point |
| OddsTracker.Tracker.DetectShift | apps/agent/src/oddsTracker.ts:58-85 | the in-place update is the detection step |
| Rng.FirstDraws | packages/quant/src/rng.ts:44-53 | the first two draws of seed 0 |
| Rng.StateIsLinear | packages/quant/src/rng.ts:44-49 | the state after n draws is seed + n * 0x6d2b79f5 modulo 2^32 |
| Rng.FullPeriod | packages/quant/src/rng.ts:44-49 | two states coincide exactly when their draw counts agree modulo 2^32 |
| Rng.MulberryDraws | packages/quant/src/rng.ts:44-53 | draw i is the mix of that state over 2^32, in [0, 1) |
| Rng.DrawInRange | packages/quant/src/rng.ts:50-52 | a draw is at most 1 - 2^-32, for any 32-bit mix |
| Rng.Mulberry32.constructor | packages/quant/src/rng.ts:44-45 | the generator starts at its seed with nothing drawn |
| Rng.Mulberry32.Next | packages/quant/src/rng.ts:46-52 | the closure's update returns the next draw of the stream |
| Rng.ProductFalls | packages/quant/src/rng.ts:63-68 | the product of k draws is at most 1 / (1 + k 2^-32) |
| Rng.AboveLimitIsEarly | packages/quant/src/rng.ts:63-68 | a product above L has fewer draws than an explicit bound in L |
| Rng.PoissonIsUnique | packages/quant/src/rng.ts:60-70 | only one number is the largest n whose first n draws multiply to more than L |
| Rng.PoissonFrom | packages/quant/src/rng.ts:60-70 | the sample exists for every L in (0, 1) and is that largest n |
| Rng.MultiplyDraw | packages/quant/src/rng.ts:65-67 | one turn of the loop multiplies in the next draw |
| Rng.DrawUntilBelow | packages/quant/src/rng.ts:65-68 | the loop ends within the bound at the first product not above L |
| Rng.Poisson | packages/quant/src/rng.ts:60-70 | the sampler terminates, uses n + 1 draws and returns the largest n whose first n draws multiply to more than L |
| Rng.HashText | packages/quant/src/rng.ts:16-29 | the two-lane loop computes the hash function |
| HashValues.HashOfAB | packages/quant/src/rng.ts:16-29 | reference value of the hash of "ab" |
| BitXor.XorCancels | packages/quant/src/rng.ts:20-22 | exclusive or with one word tells words apart and stays in 32 bits |
| HashSpread.LanesSpread | packages/quant/src/rng.ts:16-23 | two texts of one length that differ in one unit, at any place, leave different states in both lanes |
| HashSpread.FinalTells | packages/quant/src/rng.ts:24-27 | the final mix maps different pairs of lane states to different pairs of words |
| HashSpread.HashSpreads | packages/quant/src/rng.ts:16-29 | so such texts share a hash only by the eleven bits that it cuts off the second word |
| Rng.HashFits53Bits | packages/quant/src/rng.ts:28-28 | the hash is a 53-bit number |
| Seed.JoinedSplits | packages/quant/src/monteCarlo.ts:62-64 | snapshot hash, threshold and kind can be read back from the right of the joined text |
| Seed.DecodeInverts | packages/quant/src/seed.ts:11-16 | a decoder recovers kind, match id, sequence number, threshold and hash from the hashed text, whatever the match id contains |
| Seed.SeedTextIsInjective | packages/quant/src/seed.ts:11-16 | different pricing requests hash different texts |
| Seed.TextIsSpelledOut | packages/quant/src/seed.ts:11-16 | the parts of the seed text and of the hashed text, in their order and between their separators |
| Text.IntTextRoundTrip | packages/quant/src/seed.ts:11-16 | a printed integer reads back as itself |
| Text.IntTextSamples | packages/quant/src/seed.ts:11-16 | sample numerals with their sign and digits in order |
| Snapshot.NumbersRoundTrip | packages/quant/src/snapshot.ts:20-36 | the labelled numbers of the text read back in order |
| Snapshot.UnitsRoundTrip | packages/quant/src/snapshot.ts:20-36 | the quoted match id reads back for every sequence of 16-bit units, including quotes, control characters and lone surrogates |
| Snapshot.ParseInvertsPrint | packages/quant/src/snapshot.ts:20-36 | a parser inverts the canonical printer on every snapshot with integer fields |
| Snapshot.TextIsSpelledOut | packages/quant/src/snapshot.ts:20-36 | the canonical text spelled out: which number stands behind which name |
| Snapshot.EscapesAreJson | packages/quant/src/snapshot.ts:20-36 | the escapes of JSON for quotes, control characters and lone surrogates |
| Snapshot.CanonicalTextIsInjective | packages/quant/src/snapshot.ts:20-36 | equal canonical texts mean equal snapshots |
| Pricing.RateBlends | packages/quant/src/monteCarlo.ts:42-52 | the blended rate lies between the match's own pace and the prior, at either end when the weight is |
| PriceMean.MeanIsKnown | packages/quant/src/monteCarlo.ts:32-52 | the mean in events: the kind's own prior over 90 minutes plus stoppage at kickoff without a blend, its own pace over the stoppage from minute 90 on with a full one, and the weighted rate over the time left between |
| PriceMean.WeightIsLinear | packages/quant/src/monteCarlo.ts:48-50 | the weight of the pace moves linearly with the minute from blendMin at kickoff to blendMax at 90 |
| PriceMean.DefaultMeans | packages/quant/src/monteCarlo.ts:66-85 | with the default parameters 2.65 goals or 10.5 corners a match at kickoff |
| PriceMean.OwnStatisticOnly | packages/quant/src/monteCarlo.ts:66-98 | two calls that agree on the minute, the kind's own counts and prior and the other parameters get one price, whatever the other statistic and prior |
| PriceMean.StreamNames | packages/quant/src/monteCarlo.ts:60-64 | what seeds the stream: the caller's seed, the name of the predicate, the threshold and the snapshot hash |
| Pricing.SampleFuture | packages/quant/src/monteCarlo.ts:54-102 | one simulated future takes its draws from the stream in order |
| Pricing.CountExceedances | packages/quant/src/monteCarlo.ts:54-102 | the loop counts exactly the sampled futures that end above the threshold |
| Pricing.AllHitWhenOver | packages/quant/src/monteCarlo.ts:54-102 | a total already above the threshold makes every future a hit |
| Pricing.HitsMonotone | packages/quant/src/monteCarlo.ts:54-102 | on the same futures a higher threshold or lower total never gains hits |
| PriceMean.PriceCounts | packages/quant/src/monteCarlo.ts:86-93 | the price is the number of simulated futures that end over the line, out of the configured number of simulations |
| PriceOrder.OrderHoldsIf | packages/quant/src/monteCarlo.ts:54-102 | of two lines with one seed, or that no event can reach, the lower is priced no lower, for every generator and number of simulations |
| PriceOrder.OrderHoldsIff | packages/quant/src/monteCarlo.ts:54-102 | two lines that the next event decides are priced in order by every generator exactly when their seeds agree or no event can come, for every number of simulations below 2^32 |
| Pricing.IntervalBrackets | packages/quant/src/monteCarlo.ts:54-102 | the confidence interval lies in [0, 1] and contains the estimate |
| Pricing.IntervalIsNormal | packages/quant/src/monteCarlo.ts:95-100 | away from 0 and 1 each end of the interval lies 1.96 standard errors of n yes/no trials from the estimate |
| Pricing.ProbabilityInUnit | packages/quant/src/monteCarlo.ts:54-102 | the estimate lies in [0, 1] and is exactly 1 for every seed once the total is over |
| Pricing.Simulate | packages/quant/src/monteCarlo.ts:54-102 | rejects exactly the unsupported kinds; otherwise the estimate on the stream seeded by the hash of the joined text, its interval and the number of simulations |
| Pricing.MakeQuote | packages/quant/src/marketMaker.ts:29-66 | the reassignments compute the quote function, with 0 <= bid < ask <= 1 |
| Pricing.QuoteIsOrdered | packages/quant/src/marketMaker.ts:29-66 | 0 <= bid < ask <= 1 for every fair value in [0, 1], spread and skew |
| Pricing.SpreadFollowsWidth | packages/quant/src/marketMaker.ts:29-38 | the half spread is the base plus the parameter times the width of the interval, in ten-thousandths |
| Pricing.QuoteOffTheRails | packages/quant/src/marketMaker.ts:39-50 | away from the rails the quote is two half spreads wide around the skewed fair value |
| Pricing.QuoteFallsBack | packages/quant/src/marketMaker.ts:50-66 | where the skewed quote has fallen on a rail the unskewed one stands in, and without a spread a thousandth to either side |
| Pricing.QuoteBracketsIff | packages/quant/src/marketMaker.ts:13-66 | exactly when the bid is at most, and the ask at least, the fair value |
| Pricing.AskBelowFair | packages/quant/src/marketMaker.ts:13-66 | default parameters and an inventory where the ask is below the fair value |
| Pricing.NeutralQuote | packages/quant/src/marketMaker.ts:29-66 | without inventory the quote brackets the fair value, and a wider interval gives a wider quote |
| Pricing.SkewFalls | packages/quant/src/marketMaker.ts:39-45 | more inventory never raises the skew, which stays within its cap and reaches it at the notional |
| Pricing.LongerMakerIff | packages/quant/src/marketMaker.ts:29-66 | exactly when a maker with more inventory of YES quotes neither side higher: unless one of the two quotes falls back on a rail and the other does not |
| Pricing.LongerMakerCanQuoteHigher | packages/quant/src/marketMaker.ts:29-66 | default parameters and two inventories where the longer maker bids more |
| Pricing.PriceIsSound | packages/quant/src/pricing.ts:28-46 | every priced market has 0 <= bid < ask <= 1, an interval in [0, 1] around the fair value, a bracketing quote without inventory, and price 1 when decided |
| Pricing.PriceMarket | packages/quant/src/pricing.ts:28-46 | the composition of simulation and quote is that price |
| Pricing.KellyStakesOnEdge | packages/quant/src/marketMaker.ts:77-82 | the stake lies in [0, 1], is positive exactly on a positive edge and is everything exactly on a certainty |
| Pricing.KellyBalancesGrowth | packages/quant/src/marketMaker.ts:68-82 | a stake strictly between nothing and everything is where the expected logarithmic growth is stationary |
| Calibration.Backtest | packages/quant/src/pricing.ts:50-87 | the accumulating loops compute the report of the points |
| Calibration.BucketsPartition | packages/quant/src/pricing.ts:50-87 | every point falls into exactly one of the buckets |
| Calibration.BucketGap | packages/quant/src/pricing.ts:50-87 | a bucket's squared gap of sums is at most its count times its squared errors |
| Calibration.ReportIsCalibrated | packages/quant/src/pricing.ts:50-87 | ten buckets bounded by tenths; their counts sum to n, their weighted predictions to the predictions, their weighted actuals to the yes outcomes, weighted squared gaps to at most n times the Brier score, which lies in [0, 1]; each mean prediction lies in its bucket |
| Calibration.BrierAdds | packages/quant/src/pricing.ts:50-87 | one more point adds its squared error to n times the Brier score |
| Calendar.LeapCycle | apps/agent/src/weekKeeper.ts:57-64 | a year of the day-number formula has 366 days exactly in Gregorian leap years and 365 otherwise |
| Calendar.YearOfUnique | apps/agent/src/weekKeeper.ts:57-64 | the year of a day is the only one that contains it |
| Calendar.IsoWeek | apps/agent/src/weekKeeper.ts:57-64 | the date steps compute the label given, with the shift that Date.UTC makes in the years 0 to 99 |
| Calendar.LabelIsIsoIff | apps/agent/src/weekKeeper.ts:57-64 | the label given is the week of section 2.2.10 of ISO 8601:2004, defined by counting Thursdays, exactly when neither the date nor its week's Thursday is in the years 0 to 99 |
| Calendar.WeekInRange | apps/agent/src/weekKeeper.ts:57-64 | the week is in 1..53 |
| Calendar.SameWeekIff | apps/agent/src/weekKeeper.ts:57-64 | two days have the same label exactly when they share a Monday-to-Sunday week |
| Calendar.WeeksAreOrdered | apps/agent/src/weekKeeper.ts:57-64 | later weeks have lexicographically larger labels |
| Calendar.NextWeek | apps/agent/src/weekKeeper.ts:57-64 | the next week has the next number, or is week 1 after a week 52 or 53 |
| Calendar.FourthOfJanuary | apps/agent/src/weekKeeper.ts:57-64 | 4 January is always in week 1 of its year |
| WeekKeeper.WeekWindowFor | apps/agent/src/weekKeeper.ts:71-80 | the date arithmetic computes the window of every `now` since 1970 |
| WeekKeeper.CloseIsNext | apps/agent/src/weekKeeper.ts:71-80 | its close is the least Sunday close hour strictly after `now`, at most a week away |
| WeekKeeper.TitleIsInjective | apps/agent/src/weekKeeper.ts:71-80 | different weeks have different titles |
| WeekKeeper.SameMatchIdIff | apps/agent/src/weekKeeper.ts:71-80 | two clocks get the same match id exactly when they get the same close |
| WeekKeeper.KeepersAreDisjoint | apps/agent/src/priceKeeper.ts:646-648 | no match id is claimed by both keepers |
| WeekKeeper.OwnWindowsAreRecognised | apps/agent/src/weekKeeper.ts:46-48 | the weekly keeper recognises every match id it makes, for four-digit years |
| WeekLoop.StepKeepsOnce | apps/agent/src/weekKeeper.ts:242-277 | a tick keeps every window with a market of this run over, held or marked as done |
| WeekLoop.RunCreatesOncePerWindow | apps/agent/src/weekKeeper.ts:242-277 | over every run from a boot with a clock that does not go back, nothing is created for a window after a confirmed create, and at most one market is tracked when the boot recovered at most one |
| WeekLoop.TickOpensTheWindow | apps/agent/src/weekKeeper.ts:242-263 | an idle keeper whose window is not done ends a tick with a working create tracking exactly that window's market |
| WeekLoop.TickAdopts | apps/agent/src/weekKeeper.ts:242-263 | an idle keeper that finds its window's market on chain creates nothing, marks the window exactly when the market reads as final, and keeps it tracked unless a second read is good too |
| WeekLoop.TickEndsTheWindowIff | apps/agent/src/weekKeeper.ts:265-274 | after the close a tick lets go of the market exactly when it is given up or its bundle is seen to take effect, marks the window then, and leaves both alone otherwise |
| WeekLoop.GraceEndsTheWindowIff | apps/agent/src/weekKeeper.ts:265-274 | past the grace, with feed and chain reachable, a Pyth window ends exactly when the feed had begun and either has no observation or the account can take the bundle: open, without a receipt, bound to the Pyth validator |
| WeekLoop.TickStrandsIff | apps/agent/src/weekKeeper.ts:209-231 | a tick leaves an open market of a closed window to nobody exactly when it gives it up and the void is lost or early |
| WeekLoop.SpentMarketBlocksForEver | apps/agent/src/weekKeeper.ts:242-277 | an observable market that is final or resolved behind the keeper's back stays the one tracked market over every later run, and no week is opened |
| WeekLoop.LaterMarketsHaveNewLines | apps/agent/src/weekKeeper.ts:242-277 | over every run, of two markets of one window the earlier landed unseen and the later has another line |
| WeekLoop.TickCreatesIff | apps/agent/src/weekKeeper.ts:242-263 | an idle tick puts a market on chain exactly when spot and lookup answer, no market of this id and line exists, and the create takes effect |
| WeekLoop.BusyTickCreatesNothing | apps/agent/src/weekKeeper.ts:247-247 | a tick that is not idle creates nothing |
| WeekLoop.ErrorEndsTheTick | apps/agent/src/weekKeeper.ts:242-277 | an error with the first market ends the tick with nothing changed |
| WeekLoop.DryTickMarksNothing | apps/agent/src/weekKeeper.ts:265-274 | a dry run lets go of an observed market without a transaction and leaves the window unmarked |
| WeekLoop.UnseenLandingDuplicates | apps/agent/src/weekKeeper.ts:242-277 | two ticks in which an unseen create leads to a second market of the week |
| WeekLoop.Keeper.constructor | apps/agent/src/weekKeeper.ts:108-134 | starts with no finished window and the recovered markets |
| WeekLoop.Keeper.AdoptMarket | apps/agent/src/weekKeeper.ts:254-262 | a market that is already final marks its window and is released when it can be read again |
| WeekLoop.Keeper.OpenWindow | apps/agent/src/weekKeeper.ts:249-263 | the in-place update is the create half of the tick |
| WeekLoop.Keeper.SettleOrVoid | apps/agent/src/weekKeeper.ts:205-274 | the in-place update is the settle half for one market, with its bundle and its void |
| WeekLoop.Keeper.RunTick | apps/agent/src/weekKeeper.ts:242-277 | the body of the endless loop is the tick |
| PriceFeed.FetchIsLatest | apps/agent/src/priceKeeper.ts:130-140 | a fetch returns the latest publish time at or before the asked time, and fails only when there is none |
| PriceFeed.ProbeFeed | apps/agent/src/priceKeeper.ts:361-374 | the probing loop computes the probe function |
| PriceFeed.ProbeOutcomes | apps/agent/src/priceKeeper.ts:361-374 | a found time lies in the window; a miss means the window is empty; a failure has a failed fetch behind it |
| PriceFeed.ProbeIsComplete | apps/agent/src/priceKeeper.ts:361-385 | with every fetch answered an observation is found if and only if one was published in [ref, min(now, ref + 120)] and the feed had begun by the first probe; it misses if and only if the feed had begun and published nothing there |
| PriceFeed.LateFeedFails | apps/agent/src/priceKeeper.ts:361-374 | a feed with an in-window observation on which the first fetch fails |
| PriceFeed.EarliestIff | apps/agent/src/priceKeeper.ts:328-374 | the probe returns the earliest in-window time exactly when the feed had begun by the first probe and nothing later was published by the first probe at or after that time |
| PriceFeed.NotAlwaysEarliest | apps/agent/src/priceKeeper.ts:328-374 | a feed on which it does not |
| PriceMarkets.GivesUpOnlyUnprovable | apps/agent/src/priceKeeper.ts:719-737 | a market is given up only past the grace and only when its oracle cannot prove it; a Pyth market is settled only with an observation |
| PriceMarkets.VerdictIff | apps/agent/src/priceKeeper.ts:341-385 | past the grace, with the feed reachable, whether a Pyth market is settled, given up or retried is decided by the feed: has it begun, has it a publish time in the window |
| PriceMarkets.ObservableIsNeverGivenUp | apps/agent/src/priceKeeper.ts:719-737 | a Pyth market with an in-window publish time is never given up, at any time and however fetches fail |
| PriceMarkets.HandleFrame | apps/agent/src/priceKeeper.ts:719-737 | handling one market touches no other market's tracking or account, and outcomes and receipts on chain are for ever |
| PriceMarkets.LetGoIff | apps/agent/src/priceKeeper.ts:719-737 | a live keeper lets go of a market exactly when it gives it up or sees its bundle take effect, and in the second case it is settled on chain |
| PriceMarkets.StrandsIff | apps/agent/src/priceKeeper.ts:598-620 | a step leaves an open market to nobody exactly when it gives it up and the void is lost or comes before the program's grace is over |
| PriceMarkets.GraceReleasesIff | apps/agent/src/priceKeeper.ts:719-737 | past the grace, with feed and chain reachable, a Pyth market is let go of exactly when the feed had begun and either has no observation or the account can still take the bundle: open, without a receipt, bound to the Pyth validator |
| PriceMarkets.SpentMarketStays | apps/agent/src/priceKeeper.ts:385-480 | an observable market that is final or has a receipt is never let go of and nothing changes on chain |
| PriceMarkets.UnseenBundleSpends | apps/agent/src/priceKeeper.ts:472-480 | a bundle that lands while its confirmation fails leaves the market settled on chain and still tracked |
| PriceMarkets.HandleLocal | apps/agent/src/priceKeeper.ts:719-737 | what a step makes of a market depends on that market's account alone |
| PriceOracles.StepEndsAs | apps/agent/src/priceKeeper.ts:341-592 | what one step makes of a market, by its oracle: an attested market with a candle, or a Pyth one with an in-window publish time, is settled to whether the observed price is at least the line exactly when its bundle takes effect, and let go of when that is seen; without one, or with any other oracle, it is given up exactly past 4500 seconds; else it stays |
| PriceOracles.PriceTickEndsAs | apps/agent/src/priceKeeper.ts:719-737 | the same for every market of a tick of the interval keeper |
| PriceOracles.WeekTickEndsAs | apps/agent/src/weekKeeper.ts:265-274 | the same for the market of a tick of the weekly keeper |
| PriceOracles.EnsureBinds | apps/agent/src/priceKeeper.ts:263-323 | a create binds the market to the oracle in use and its closing time; an adopted market is tracked with the oracle it has |
| PriceOracles.PriceRunAgrees | apps/agent/src/priceKeeper.ts:699-745 | over every run each tracked market is bound on chain to the oracle it is tracked with |
| PriceMarkets.Context.constructor | apps/agent/src/priceKeeper.ts:650-664 | the context starts with the recovered markets |
| PriceMarkets.Context.IndexOf | apps/agent/src/priceKeeper.ts:280-283 | the scan finds the tracked market of an address |
| PriceMarkets.Context.Send | apps/agent/src/priceKeeper.ts:610-618 | one transaction, which may be lost, revert, land, or land unseen, and its entry in the trace |
| PriceMarkets.Context.EnsurePriceMarket | apps/agent/src/priceKeeper.ts:263-323 | the method's new state, result or error is the create-or-adopt step |
| PriceMarkets.Context.SettlePriceMarket | apps/agent/src/priceKeeper.ts:341-480 | the method's new state and result are the settle step |
| PriceMarkets.Context.VoidPriceMarket | apps/agent/src/priceKeeper.ts:598-620 | the method's new state is the give-up step: forget first, then send |
| PriceLoop.BoundaryIsNext | apps/agent/src/priceKeeper.ts:701-701 | the next boundary is the least multiple of the interval after `now` |
| PriceLoop.PassIsLocal | apps/agent/src/priceKeeper.ts:719-737 | what a tick makes of a market is what the market's own step makes of it, whatever happens to the others |
| PriceLoop.StepAccounts | apps/agent/src/priceKeeper.ts:699-745 | a tick, or somebody else's transaction, keeps every market tracked, final on chain, or let go of by a void that met it open and did not take effect |
| PriceLoop.RunAccounts | apps/agent/src/priceKeeper.ts:699-745 | the same over every run |
| PriceLoop.TickStrandsIff | apps/agent/src/priceKeeper.ts:598-620 | a tick strands a tracked open market exactly when it gives it up and the void is lost or early |
| PriceLoop.RunStrandsIff | apps/agent/src/priceKeeper.ts:598-620 | over every later run in which nobody else touches it, a market ends up stranded if and only if a void for it met it open and did not take effect |
| PriceLoop.StrandedStays | apps/agent/src/priceKeeper.ts:699-745 | the keeper never comes back to a stranded market whose round is over |
| PriceLoop.LostVoidStrands | apps/agent/src/priceKeeper.ts:598-620 | a feed gap and a lost void that strand a market |
| PriceLoop.TickReleasesIff | apps/agent/src/priceKeeper.ts:719-737 | past the grace, with feed and chain reachable, a tick lets go of a Pyth market exactly when the feed had begun and either has no observation or the account can take the bundle: open, without a receipt, bound to the Pyth validator |
| PriceLoop.SpentMarketIsCarriedForEver | apps/agent/src/priceKeeper.ts:699-745 | an observable market that is final or resolved behind the keeper's back is tracked over every later run |
| PriceLoop.RunIsJustified | apps/agent/src/priceKeeper.ts:699-745 | over every run each void was sent past the grace for a market without a proof, each Pyth bundle with an observation |
| PriceLoop.TickTracksTheNextRound | apps/agent/src/priceKeeper.ts:699-717 | a tick with a spot price and a working create ends with the next round's market tracked |
| PriceLoop.PythVoidsAreRight | apps/agent/src/priceKeeper.ts:699-745 | over every run from whatever markets the boot recovered, a Pyth market is voided only after ref + 4500 and only when no publish time lies in [ref, ref + 120] |
| PriceLoop.PriceKeeper.constructor | apps/agent/src/priceKeeper.ts:650-667 | starts with the recovered markets |
| PriceLoop.PriceKeeper.SettleOrVoid | apps/agent/src/priceKeeper.ts:719-737 | the in-place update is the settle-or-void half for one market |
| PriceLoop.PriceKeeper.RunTick | apps/agent/src/priceKeeper.ts:699-745 | the body of the endless loop is the tick |
| Payout.FormulasAgree | apps/web/components/ResolutionCard.tsx:36-42 | the two payout formulas of the app agree on all integers |
| Payout.PayoutsAreSolvent | apps/web/components/LivePnLStrip.tsx:19-22 | the winners' floored payouts sum to at most both pools and leave fewer lamports than there are winners |
| Payout.WinnerKeepsStake | apps/web/components/LivePnLStrip.tsx:19-22 | a winner gets at least the stake |
| Payout.MergeGainsAtMostOne | apps/web/components/LivePnLStrip.tsx:19-22 | one position instead of two gains nothing or one lamport |
| Payout.VaultNeverUnderflows | programs/market/src/lib.rs:442-512 | after any prefix of the claims the vault still holds a non-negative amount |
| History.SortSelects | apps/web/store/historySlice.ts:94-148 | sorting by time and dropping positions commute |
| History.CurrentIsTrailing | apps/web/store/historySlice.ts:94-148 | the current streak is the signed length of the longest run of equal results at the end |
| History.BestIsFirstLongest | apps/web/store/historySlice.ts:94-148 | the best streak is the first longest run, with its sign |
| History.ComputeHistoryStats | apps/web/store/historySlice.ts:94-148 | the loop over mutable counters computes the run-based statistics |
| History.CountsAddUp | apps/web/store/historySlice.ts:94-148 | wins, losses and voids add up to the number of positions |
| HistoryMeaning.StatsSay | apps/web/store/historySlice.ts:94-148 | wins and losses are the bets that were right and wrong about the outcome; the profit is what the right ones were paid less the stakes of all that were not void; the volume is all stakes |
| HistoryMeaning.StreakSays | apps/web/store/historySlice.ts:94-148 | the current streak is a winning one exactly when the last bet in time that was not void was right |
| History.VoidsChangeNothing | apps/web/store/historySlice.ts:94-148 | deleting all void positions changes no streak, no win or loss count and no profit |
| History.CappedRefines | apps/web/store/historySlice.ts:61-70 | adding to the list cut at 100 is adding to the whole list and cutting |
| History.StoreRefines | apps/web/store/historySlice.ts:61-70 | after any adds the list holds one position per market and owner, the latest of each, newest first, and the first 100 of them |
| History.HistoryStore.constructor | apps/web/store/historySlice.ts:50-61 | starts empty |
| History.HistoryStore.AddSettledPosition | apps/web/store/historySlice.ts:61-70 | the in-place update is the capped add |
| BondSweep.PickMembers | apps/agent/src/claims.ts:61-108 | the two work lists hold exactly the closable and the bond-only dead markets |
| BondSweep.ClosableIff | apps/agent/src/claims.ts:61-97 | a dead market can be closed exactly when its settlement is more than a week old |
| BondSweep.SweepPartitions | apps/agent/src/claims.ts:99-183 | every due market is in exactly one of closed, claimed or failed, and only closable ones are closed |
| BondSweep.BatchesAreIndependent | apps/agent/src/claims.ts:129-168 | a market is closed or claimed exactly when the one transaction that carries its batch of at most eight succeeds |
| BondSweep.SweepTouchesOnlyDue | apps/agent/src/claims.ts:99-183 | only closable markets are closed, no other account changes except that a dead one's bond is claimed, and a dry run changes nothing |
| BondSweep.RepeatSendsNothing | apps/agent/src/claims.ts:99-183 | after a sweep that reports no failure a repeat at the same clock sends no transaction |
| BondSweep.Sweeper.constructor | apps/agent/src/claims.ts:99-104 | starts on the given chain |
| BondSweep.Sweeper.SendBatch | apps/agent/src/claims.ts:129-168 | the loop over slices is the batched send |
| BondSweep.Sweeper.SweepCreatorBonds | apps/agent/src/claims.ts:99-183 | the method's lists, chain and transaction count are the sweep |
| SettlePacking.BuildSettleTransactions | apps/agent/src/settle.ts:202-311 | the attempts in order compute the packing |
| SettlePacking.PackIsSound | apps/agent/src/settle.ts:202-311 | every packed transaction fits, the payload is the bundle in order, a split puts resolve alone first and is made only when the plain bundle does not fit; the table is used only when it is ready and neither the plain bundle nor both plain halves fit |
| SettlePacking.AtomicIsPassedOverIff | apps/agent/src/settle.ts:225-286 | a bundle that fits with the table is split all the same exactly when it does not fit without it and both plain halves do, table ready or not |
| SettlePacking.HalfTakesTableNeedlesslyIff | apps/agent/src/settle.ts:288-305 | a split half travels with the table although it fits without it exactly when nothing atomic fits, the table is ready, both its forms fit and the other half fits only with the table |
| SettlePacking.AtomicIsPassedOver | apps/agent/src/settle.ts:225-286 | a bundle that fits with the table and is split |
| SettlePacking.HalfTakesTableNeedlessly | apps/agent/src/settle.ts:288-305 | a bundle whose first half travels with the table without need |
| SettlePacking.EnsureIsSound | apps/agent/src/settle.ts:439-510 | afterwards the lookup table holds every needed address, an old one only grows, and it is within its cap exactly when no fresh table is too small for static and needed addresses together |
| SettlePacking.ReadyIff | apps/agent/src/settle.ts:439-510 | the table may be used at once exactly when it is complete and a slot later than its last extension is confirmed, or it was extended and a later slot was seen |
| SettlePacking.ReadyNextTime | apps/agent/src/settle.ts:439-510 | once the table has been extended, the same request at a later slot changes nothing and is ready |
| SettlePacking.SettleTable.constructor | apps/agent/src/settle.ts:439-510 | a new table holds the static addresses |
| SettlePacking.SettleTable.EnsureAltAddresses | apps/agent/src/settle.ts:439-510 | the in-place update is the extend-or-rotate step |

## Left out

- Interleaving inside one action: an action is one atomic step, so nothing is said about an index held across awaits while another action runs.
- KeeperDeadlines.RunKeepsSchedule: assumes clocks that do not run back inside a pass and events that settle no market already pending; the exact condition for one entry is RequeueOnScheduleIff, and AttemptsAreUnbounded shows what other events do.
- KeeperDeadlines.NothingDroppedSilently: leaves out dry-run mode, where a settlement is reported without any transaction.
- Failing file writes, malformed JSON and partially written files: the file is a sequence of rows, each field of which may be missing.
- RPC calls, signing, confirmation polling, servers, telemetry and delays: only their success or failure is a parameter.
- Event handling, strategy decisions, quoting actions, match state, the set of known addresses and the claim part of housekeeping: they do not touch the modelled state.
- The proof service, the proof bytes, the validator programs and the attestation signature: a proof is built or not, and an attestation observation exists or not.
- The oracle a new match market gets: it is taken to be TxLINE's validator on the keeper's own network.
- The on-chain programs beyond status, outcome, oracle, receipt and claims window; the program clock equals the sweep's clock.
- Floating-point rounding, NaN and infinities, the log-loss of the report, the numeric values of `exp` and `sqrt`.
- Money and time as 64-bit or 53-bit numbers: they are unbounded integers.
- Snapshot.ParseInvertsPrint: is about integer fields, since the text of a fractional double needs the number-printing algorithm of ECMA-262.
- Seed.DecodeInverts: is about kinds, number texts and hashes free of '|', and kinds free of ':', which all of them are; that different numbers have different texts is not modelled.
- SettlePacking.PackIsSound: the serialized size is an uninterpreted function of the instructions and the use of a table.
- WeekKeeper.WeekWindowFor: is for clocks since 1970; before that `Date.UTC` may also move the clock's own day.
- PriceMarkets.VerdictIff: is about answered fetches; PriceFeed.ProbeOutcomes says what a failing fetch can mean.
- Closing of market accounts by the bond sweep while a price keeper still tracks them: accounts of the price chain are never removed.
- Pricing.PriceMarket: two seed texts may share a hash.
- PriceOrder.OrderHoldsIff: asks for order under every generator, not mulberry32's own mix, and is about lines between the total so far and the next event.
- SHA-256: the snapshot hash is an uninterpreted text.
- Rng.DrawInRange: is stated for any 32-bit mix, so the statistical quality of the generator is not claimed.
- Calibration.ReportIsCalibrated: needs predictions in [0, 1]; the report itself is modelled on all points.
- WeekKeeper.OwnWindowsAreRecognised: is limited to years 1000 to 9999, because the pattern asks for four digits.
- WeekLoop.Keeper.constructor: the scan that recovers markets at boot is a parameter, and its claim pass over markets that are no longer open is not modelled.
- One market per interval round: not guaranteed by the code, since the threshold is part of the address and moves with the spot price.
- Rounding of the spot price to a threshold, statement texts and the ledger.
- Creation of a lookup table and its discovery at boot.
- Payout.PayoutsAreSolvent: needs the winning stakes to sum to the winning pool, as the market program keeps it.
- React components, animation, storage in the browser, campaign generation and operator scripts.
