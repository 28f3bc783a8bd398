# A Dafny model of the agreement, ledger and supporting protocols

This project models the parts of a Byzantine-agreement node in which state is carried over long
runs, and proves what those parts promise for every input, every order of events and every
crash. `dafny verify dfyconfig.toml` checks all of it.

**Vote counting and bundles** (`AgreementTypes`, `Weights`, `VoteTracker`, `Bundles`,
`VoteMachine`). A tracker counts the weighted votes of one step. A sender who votes for two
values becomes an equivocator and counts for every value. What the tracker announces is compared
with a reference that only looks at the set of ballots. Signatures are ideal and a sender's
weight is fixed within a step. Each panic is an explicit outcome.

**The player and its proposal store** (`Proposals`, `Player`, `PlayerSafety`, `PlayerProgress`,
`PlayerLock`, `PlayerMachine`, `Crash`, `CrashExact`). The player is a step machine over (round, period, step)
that decides what to attest. The model keeps every event that reaches it: timeouts,
proposal-votes, payloads, quorums, interruptions and the collection of old state, in any order.
The crash protocol adds the persist fields, the queue of writes, the disk and the votes that
wait for a write.

**The ledger's accounts** (`Totals`, `Accounts`, `Cow`, `CowMachine`, `Eval`, `EvalMoney`,
`EvalAccepted`, `RefCounts`, `AccountUpdates`, `AccountMachine`, `AssetListing`, `AssetNumbers`). Totals per status are kept up
to date with 64-bit overflow tracking, rewards are applied lazily, blocks are evaluated in nested
copy-on-write states, and the accounts of recent rounds live in a series of deltas with a
reference-counted cache over a snapshot on disk. All of it is compared with plain replay.

**Durability and duplicates** (`BlockQueue`, `TxTail`). Puts, the background writer, the
trackers and a crash may interleave in any way.

**Self-contained machines** (`OneTimeKeys`, `Catchup`, `Auction`, `AuctionRun`). Forward-secure
one-time keys with ideal signatures, the pipelined catchup protocol with its channels, and a
descending-price auction.

Where a property turned out to be false of the code the model keeps the code as it is, gives a
concrete run that breaks the property, and says when it holds:

- A value that was staged while its payload was already assembled is not made relevant again
  (`agreement/proposalStore.go:317-323`). A later proposal-vote of the previous period can then
  evict its payload, and the player votes bottom after having voted to certify the value
  (`PlayerLock.LockLost`). `PlayerLock.LockExact` gives the condition in both directions, for the
  payload and for the votes.
- Restoring after a crash does not set the persist fields again (`agreement/service.go:173-194`),
  so the votes that are made again overwrite the saved state with an empty one, and a second crash
  can lead to two votes for different values (`CrashExact.TwoCrashesUnsafe`). One crash is always
  safe. `CrashExact.CrashDecides` gives the exact condition: the votes stay consistent, whatever
  happens next, if and only if the crash does not find the empty record while a released vote
  other than redo and down is not yet behind the ledger.
- `validate` accepts parameters for which `CurrentPrice` panics (`Auction.ValidatedCanPanic`);
  `Auction.PanicExact` gives the exact condition. An auction whose last round is the largest
  64-bit number does not settle if no round clears (`AuctionRun.LastRoundWraps`);
  `AuctionRun.Settle` states exactly when an auction settles.
- The number of rows that `listAssets` fetches can wrap around (`AssetListing.ListingWraps`);
  `AssetListing.ListingCondition` says exactly when the listing is still right.
- A deletion of one-time keys up to the last 64-bit batch number deletes nothing
  (`OneTimeKeys.LastBatchInsecure`); `OneTimeKeys.ForwardSecureExact` gives the exact condition.

## Model

| member | source | states |
|---|---|---|
| `AgreementTypes.QuorumIsThreshold` | agreement/types.go:85-126 | reaching a quorum is weighing at least the step's threshold, for every step |
| `VoteTrackers.RunDecides` | agreement/voteTracker.go:95-295 | from an empty tracker, for any votes in any order: it panics if and only if the ballots make two values or too many equivocators reach the threshold; otherwise it announces exactly one value if some value is elected and none if not, and every count equals the support in the ballots |
| `VoteTrackers.RunIsExact` | agreement/voteTracker.go:95-295 | from any consistent tracker the state after a run is the one the ballots seen so far determine |
| `VoteTrackers.NextExact` | agreement/voteTracker.go:119-253 | one vote keeps all counters equal to the support, and its outcome follows from the ballots before and after it |
| `VoteTrackers.OrderIrrelevant` | agreement/voteTracker.go:119-253 | two runs over the same votes, in any two orders, panic together or announce the same value |
| `VoteTrackers.SupportNeverDecreases` | agreement/voteTracker.go:119-253 | no vote lowers the support of any value, not even when a voter turns equivocator |
| `VoteTrackers.QuorumsIntersect` | agreement/voteTracker.go:75-310 | if two trackers fed from one step's votes announce different values, the senders who voted twice weigh at least two thresholds less the committee |
| `VoteTrackers.CountBounded` | agreement/voteTracker.go:75-77 | no count exceeds the weight of the committee, so 64-bit counting does not wrap when the committee fits |
| `VoteMachine.SortedKeys` | agreement/voteTracker.go:314-352 | the senders of a map, heaviest first and then by address, whatever order the map yields |
| `VoteMachine.FirstWeighMost` | agreement/voteTracker.go:314-352 | no k senders outweigh the first k of the sorted list |
| `VoteMachine.CutSmallest` | agreement/voteTracker.go:314-352 | no smaller set of a value's own voters reaches the quorum than the one a bundle packs |
| `VoteMachine.CutAt` | agreement/bundle.go:72-131 | the cutoff loop stops at the first position where the weight reaches the target, or at the end |
| `VoteMachine.MakeBundle` | agreement/bundle.go:72-131 | packing yields a bundle if and only if votes are given, all for the value, and they reach the quorum |
| `VoteMachine.VoteTracker.constructor` | agreement/voteTracker.go:40-62 | a new tracker is empty |
| `VoteMachine.VoteTracker.CountOf` | agreement/voteTracker.go:75-77 | a value's own weight plus that of all equivocators |
| `VoteMachine.VoteTracker.OverThreshold` | agreement/voteTracker.go:299-310 | a value over the threshold if there is exactly one; a panic if there are several |
| `VoteMachine.VoteTracker.Handle` | agreement/voteTracker.go:119-253 | updating the maps in place is the specified step, with the same outcome |
| `VoteMachine.VoteTracker.GenBundle` | agreement/voteTracker.go:314-352 | for a value over the threshold the bundle proves it: distinct senders, genuine votes, a quorum that is lost without the last entry, and the fewest votes possible |
| `VoteMachine.VoteTracker.Accept` | agreement/voteTracker.go:119-253 | a threshold event comes with a bundle that proves its value |
| `VoteMachine.CheckDistinct` | agreement/bundle.go:143-190 | true if and only if no sender occurs twice in the bundle |
| `VoteMachine.Verify` | agreement/bundle.go:143-268 | verification succeeds if and only if the bundle is acceptable, in whatever order the checks complete |
| `VoteMachine.Replay` | agreement/voteAggregator.go:149-182 | feeding a verified bundle to a tracker is a run over its votes, pairs as two votes each |
| `Bundles.PackedAccepted` | agreement/bundle.go:143-268 | every bundle a tracker packs has at most threshold entries and passes verification |
| `Bundles.ReplayReaches` | agreement/voteAggregator.go:149-182 | replaying any verified bundle into any tracker of its step ends with its value over the threshold, or in one of the tracker's safety panics |
| `Bundles.PackedConvinces` | agreement/voteAggregator.go:149-182 | the round trip: what one tracker packs another one verifies and is convinced by |
| `PlayerSafety.HandleStep` | agreement/player.go:66-333 | every event keeps the invariant, moves the player onward, keeps what is staged, and makes at most one attest, which is lawful and new |
| `PlayerSafety.NoSelfContradiction` | agreement/player.go:87-245 | along every run all attests of one round, period and step name one value; soft, cert, late and redo votes are never for bottom and down votes always are, so the panics of vote making are out of reach |
| `PlayerSafety.NoteQuorumOk` | agreement/voteAuxiliary.go:60-157 | the freshest quorum of a round never goes back, and a second soft quorum of a period is never passed on |
| `PlayerSafety.CollectStep` | agreement/router.go:113-199 | collecting old rounds and periods changes nothing that the player still relies on |
| `PlayerProgress.NextVoteRanges` | agreement/types.go:66-81 | the doubling loop gives the closed form for the start and end of a step |
| `PlayerProgress.RangesMeet` | agreement/types.go:66-81 | each step starts where the one before it ends and lasts twice as long |
| `PlayerProgress.NeverGoesBack` | agreement/player.go:66-376 | over every run (round, period, step) never goes back, deadlines never decrease inside a period, and each is the one its step prescribes; durations are unbounded here, and `DeadlinesFit` says up to which step the code's are the same |
| `PlayerProgress.EnterRoundProgress` | agreement/player.go:335-376 | entering a round, with the quorums already seen for it and for rounds after it, terminates and ends in a later round or period with the right deadline |
| `PlayerProgress.DurationFits` | agreement/types.go:66-81 | with the shipped timings the end of a step fits a signed 64-bit duration exactly up to step 34 |
| `PlayerProgress.DeadlinesFit` | agreement/types.go:66-81 | over every run with the shipped timings every deadline fits a signed 64-bit duration up to step 34; beyond it none does, except while napping in step 35 |
| `PlayerLock.LockHolds` | agreement/player.go:189-245 | once a value is staged with its payload and held, every later next or late vote of the period is for it, whatever happens |
| `PlayerLock.LockExact` | agreement/proposalStore.go:271-366 | a staged value keeps its payload until the period ends, under all events, if and only if it is pinned or is the relevant value of a period that accepts no more proposal-votes; and exactly then every next, late, redo or down vote that the player can still make in the period is for it |
| `PlayerLock.LockCanFail` | agreement/proposalStore.go:196-213 | if it is not held, proposal-votes that pass verification evict the payload |
| `PlayerLock.VotesOtherwise` | agreement/player.go:189-213 | and some run in the same period then votes bottom in a next step |
| `PlayerLock.LockDecides` | agreement/player.go:189-245 | the same two equivalences for every state that a player can come to from its start |
| `PlayerLock.LockLost` | agreement/proposalStore.go:307-334 | for any two blocks of different proposers, a run from the start in which a player votes to certify one and then votes bottom in the same period |
| `PlayerLock.PinnedStep` | agreement/proposalStore.go:271-288 | a period change started by a value, or by bottom with it staged, pins it with its payload |
| `PlayerLock.PinnedRun` | agreement/proposalStore.go:271-288 | a pinned value stays pinned with its payload through all later periods of the round while every quorum is for it or for bottom |
| `PlayerLock.AtMostOneAssembler` | agreement/proposalStore.go:290-294 | the store of a round not entered yet has at most one assembler, so the check on entering it cannot fail |
| `PlayerMachine.ProposalStore.constructor` | agreement/proposalStore.go:187-193 | a new store is empty |
| `PlayerMachine.ProposalStore.Trim` | agreement/proposalStore.go:356-366 | rebuilding the assemblers keeps exactly those of pinned and relevant values |
| `PlayerMachine.ProposalStore.TakeVote` | agreement/proposalStore.go:196-213 | an accepted proposal-vote makes its value relevant in its period |
| `PlayerMachine.ProposalStore.KeepPayload` | agreement/proposalStore.go:215-241 | a payload that is not validated yet is kept once, and only for a known value |
| `PlayerMachine.ProposalStore.TakePayload` | agreement/proposalStore.go:241-269 | a validated payload is bound once, and only to a known value |
| `PlayerMachine.ProposalStore.NewPeriod` | agreement/proposalStore.go:271-288 | a new period pins its starting value or the staged one and forgets old periods |
| `PlayerMachine.ProposalStore.SoftThreshold` | agreement/proposalStore.go:307-334 | a soft quorum is committable at once if the payload is here, and otherwise makes its value relevant |
| `PlayerMachine.PlayerState.constructor` | agreement/service.go:186-187 | a player that starts fresh |
| `PlayerMachine.PlayerState.IssueSoftVote` | agreement/player.go:145-181 | the soft vote and the frozen tracker are those of the specification the safety proofs are about |
| `PlayerMachine.PlayerState.IssueNextVote` | agreement/player.go:189-213 | the next vote, and the deadline of its step, likewise |
| `PlayerMachine.PlayerState.IssueFastVote` | agreement/player.go:215-245 | the late, redo or down vote, likewise |
| `PlayerMachine.PlayerState.Timeout` | agreement/player.go:66-115 | a timeout in any step, likewise |
| `PlayerMachine.PlayerState.FastTimeout` | agreement/player.go:125-143 | a fast-recovery timeout, likewise |
| `PlayerMachine.PlayerState.TakeProposal` | agreement/proposalTracker.go:129-158 | a proposal-vote at its period's tracker and then at the store, likewise |
| `PlayerMachine.PlayerState.TakePayload` | agreement/proposalStore.go:243-269 | a validated payload and the cert vote it may lead to, likewise |
| `PlayerMachine.PlayerState.Collect` | agreement/router.go:113-199 | the loops that drop old rounds and periods, likewise |
| `PlayerMachine.PlayerState.Stage` | agreement/proposalStore.go:307-334 | a soft quorum at the tracker and the store, likewise |
| `PlayerMachine.PlayerState.EnterPeriod` | agreement/player.go:298-333 | entering a period on a soft or next quorum, likewise |
| `PlayerMachine.PlayerState.HandleThreshold` | agreement/player.go:258-296 | a quorum of any kind, likewise |
| `PlayerMachine.PlayerState.EnterRound` | agreement/player.go:335-376 | entering a round and handling the quorum already seen for it, likewise |
| `PlayerMachine.PlayerState.Handle` | agreement/player.go:66-123 | every event, likewise |
| `Crash.RunSafe` | agreement/service.go:166-226 | every step of a node, from event to released vote, write and crash, keeps all released votes inside the history that the disk accounts for |
| `Crash.OneCrashSafe` | agreement/persistence.go:242-303 | over any run with one crash and restore the released votes never name two values for one round, period and step |
| `Crash.ReleasedAgree` | agreement/pseudonode.go:389-422 | the same for any number of crashes, none of which finds the unset fields on disk while a released vote other than redo and down is not behind the ledger |
| `Crash.WriteSafe` | agreement/persistence.go:268-303 | a write that succeeds or fails keeps the order in which saved states grow |
| `Crash.ActSafe` | agreement/actions.go:341-370 | an attest asks for a write of the state that ordered it before it may be released |
| `CrashExact.CrashDecides` | agreement/persistence.go:242-303 | after a crash the released votes agree in every continuation without a further crash, if and only if the crash is one of those |
| `CrashExact.ReleasedAgreeExactly` | agreement/service.go:166-226 | over every run with any number of crashes: each crash is one of those, if and only if at no point of the run the released votes can come to disagree without a further crash |
| `CrashExact.HarmfulBreaks` | agreement/player.go:145-245 | after any other crash there is a run that releases a vote against one released before, for every step in which that vote can be |
| `CrashExact.TwoCrashesUnsafe` | agreement/service.go:173-212 | for any two blocks, a run with two crashes after which two released votes contradict each other |
| `AccountTotals.WrappedAdd` | data/basics/overflow.go:36-40 | comparing after the addition detects exactly the sums that do not fit |
| `AccountTotals.WrappedSub` | data/basics/overflow.go:43-47 | likewise for differences |
| `AccountTotals.WrappedMul` | data/basics/overflow.go:50-60 | dividing after the multiplication detects exactly the products that do not fit |
| `AccountTotals.ShiftedExact` | ledger/totals.go:67-79 | replacing one account in the totals gives the sums over the changed accounts without overflow |
| `AccountTotals.ShiftedAllExact` | ledger/acctupdates.go:505-522 | replacing the accounts of a block one by one, in any order, gives the sums over the new accounts, and no intermediate sum overflows |
| `AccountTotals.Tallied` | ledger/acctupdates.go:505-522 | the loop over a block's accounts replaces each of them once |
| `AccountTotals.AllIsSupply` | ledger/totals.go:89-107 | the sum of the three statuses is the sum over all accounts |
| `Accounts.RewardGrowth` | data/basics/userBalance.go:231-255 | raising the level adds a reward for each unit of a participating account and nothing to others |
| `Accounts.RewardedExact` | ledger/totals.go:35-86 | applying rewards to the totals gives the totals at the new level without overflow |
| `Accounts.SupplyGrowth` | ledger/totals.go:112-118 | all money grows by what the reward units of the totals earn |
| `Accounts.NewTotals` | ledger/acctupdates.go:497-531 | the totals of a new block are those of the last one, rewarded and changed account by account |
| `Accounts.NewTotalsExact` | ledger/acctupdates.go:497-531 | for changes that start from the accounts as they were, the incremental totals are the sums over the changed accounts and the overflow panic is out of reach |
| `Cow.NestingIsInvisible` | ledger/cow.go:88-185 | for groups nested to any depth, running them in children and committing leaves the very same accounts, transactions and assets as running the kept ones in place; dropped groups leave no trace |
| `Cow.CommitReads` | ledger/cow.go:163-185 | a commit changes no lookup, no asset creator and no known transaction |
| `Cow.CommitPut` | ledger/cow.go:128-185 | writing in a child and committing is committing and then writing |
| `Cow.RecordedDeltas` | ledger/cow.go:128-141 | however an evaluation nests, each recorded old value is the base value, and the recorded changes give what lookups say |
| `Cow.OwnedExact` | ledger/accountdb.go:278-304 | a write keeps the creator table exact if and only if it gives the account no asset of another |
| `Cow.CounterExact` | ledger/cow.go:124-126 | a commit keeps the transaction counter if and only if child and parent share no transaction |
| `CowMachine.CowState.Root` | ledger/cow.go:69-82 | a state over the base has no changes |
| `CowMachine.CowState.Child` | ledger/cow.go:148-161 | a child adds an empty layer |
| `CowMachine.CowState.Lookup` | ledger/cow.go:99-106 | looking through the parents is looking through the layers |
| `CowMachine.CowState.GetAssetCreator` | ledger/cow.go:88-97 | likewise for asset creators |
| `CowMachine.CowState.IsDup` | ledger/cow.go:108-122 | likewise for recorded transactions |
| `CowMachine.CowState.Counter` | ledger/cow.go:124-126 | likewise for the transaction counter |
| `CowMachine.CowState.Put` | ledger/cow.go:128-141 | a write changes the top layer and no parent |
| `CowMachine.CowState.AddTx` | ledger/cow.go:143-146 | a transaction enters the top layer only |
| `CowMachine.CowState.CommitToParent` | ledger/cow.go:163-185 | a commit merges the top layer into the parent, keeping the parent's old values |
| `Eval.GroupsAreEntered` | ledger/eval.go:483-548 | evaluating groups of transfers, asset creations and asset deletions in child states shows the same accounts, creators and transactions as entering them one by one in a table, without those that fail |
| `Eval.EvaluatedShown` | ledger/eval.go:205-323 | likewise for a whole block that starts with the withdrawal from the rewards pool |
| `Eval.EvaluatedChanges` | ledger/eval.go:105-161 | the changes recorded by an evaluation start from the accounts as they were |
| `Eval.Move` | ledger/eval.go:114-161 | moving money in a copy-on-write state is the specified transfer, partial effects of a failure included |
| `Eval.End` | data/transactions/asset.go:117-194 | the end of a transaction refuses a duplicate, creates the asset numbered after the transaction counter or destroys one, and records the transaction |
| `Eval.TransactionGroup` | ledger/eval.go:483-548 | a group that fails leaves the parent state unchanged; one that succeeds is committed as a whole |
| `EvalMoney.TransferConserves` | ledger/eval.go:114-161 | a transfer, sender and receiver equal or not, leaves the sum of all money with deferred rewards unchanged and fails exactly when the sender has too little |
| `EvalMoney.WithdrawalConserves` | ledger/eval.go:285-322 | what leaves the rewards pool is exactly what all accounts gain by the higher level |
| `EvalMoney.BlockConserves` | ledger/eval.go:205-323 | evaluating any block leaves the sum of all money what it was |
| `EvalMoney.NoMoneyChanges` | ledger/acctupdates.go:497-531 | after an evaluated block the incremental totals are exact, nothing overflows, and the sum of money has not changed, so that panic cannot fire |
| `EvalAccepted.EvaluatedBlockOk` | ledger/acctupdates.go:480-532 | every evaluated block, with or without asset creations, meets all that the account tracker relies on, so none of its panics is reachable by one, and its new assets are numbered between the counters of its header and the one before |
| `EvalAccepted.AllocationSucceeds` | data/transactions/asset.go:128-137 | the check that a new asset number is taken never fires: a creation is refused only as a duplicate transaction |
| `EvalAccepted.EvaluatedAllocates` | ledger/accountdb.go:278-304 | no two accounts of an evaluated block create or delete the same asset |
| `EvalAccepted.EvaluatedVouched` | ledger/acctupdates.go:480-532 | a block evaluated on top of the tracker's latest round is one that the tracker takes, whatever blocks and flushes came before |
| `RefCounts.BumpedOk` | ledger/acctupdates.go:505-522 | counting a block's changes keeps the cache equal to the latest changes and their number |
| `RefCounts.Bump` | ledger/acctupdates.go:505-522 | the loop that raises the counts of a block's keys |
| `RefCounts.CountAll` | ledger/acctupdates.go:413-425 | the flush counts are the number of flushed change sets that mention a key |
| `RefCounts.Evict` | ledger/acctupdates.go:436-468 | eviction panics if and only if a flushed key is missing or has too few references, and otherwise lowers or drops each count |
| `RefCounts.EvictOk` | ledger/acctupdates.go:436-468 | for a correct cache no flush of a prefix makes eviction panic |
| `RefCounts.EvictedCache` | ledger/acctupdates.go:436-468 | and the cache that is left is correct for the remaining change sets |
| `AccountUpdates.LastIsReplay` | ledger/acctupdates.go:213-254 | searching the deltas backwards gives what replaying them gives |
| `AccountUpdates.LastIsReplayCreators` | ledger/acctupdates.go:345-377 | likewise for asset creators |
| `AccountUpdates.BlockGood` | ledger/acctupdates.go:480-532 | a new block keeps every statement about earlier rounds and extends it to the new one |
| `AccountUpdates.FlushGood` | ledger/acctupdates.go:379-478 | a flush keeps the whole invariant |
| `AccountUpdates.FlushKeepsViews` | ledger/acctupdates.go:379-478 | a flush changes no account and no asset creator of any round that can still be asked for |
| `AccountUpdates.GatherAssets` | ledger/acctupdates.go:512-521 | the inner loop collects all asset changes of a block and counts each once |
| `AccountMachine.AccountTracker.constructor` | ledger/acctupdates.go:105-153 | a snapshot whose totals are the sums over its accounts |
| `AccountMachine.AccountTracker.Lookup` | ledger/acctupdates.go:213-254 | an answer for exactly the rounds from the snapshot to the latest, equal to replay, with or without the rewards due in that round |
| `AccountMachine.AccountTracker.AllBalances` | ledger/acctupdates.go:256-277 | all accounts of a round, equal to replay |
| `AccountMachine.AccountTracker.GetAssetCreatorForRound` | ledger/acctupdates.go:345-377 | the creator of an asset in a round, equal to replay |
| `AccountMachine.AccountTracker.ListAssets` | ledger/acctupdates.go:279-343 | whatever blocks and flushes came before, the first live assets of the latest round at or below a bound, newest first, with their creators; exactly when the page suffices |
| `AccountMachine.AccountTracker.NewBlock` | ledger/acctupdates.go:480-532 | an old block is ignored and a gap panics; the next block panics only if its totals overflow or change the sum of money, and otherwise is appended; one that evaluation vouches for is always appended, with exact totals and all invariants kept |
| `AccountMachine.AccountTracker.CommittedUpTo` | ledger/acctupdates.go:379-478 | it flushes if and only if there are rounds older than the lookback, no flush was recent and the database works; a flush that succeeds or fails keeps all views; the inconsistency panics are out of reach and the other one fires only for a round too far ahead |
| `AccountMachine.StoreRound` | ledger/accountdb.go:306-403 | one round's rows: empty accounts deleted, others replaced, asset creators inserted and deleted; it fails if and only if an asset it creates has a row already |
| `AccountMachine.AccountTracker.FlushRounds` | ledger/acctupdates.go:408-431 | the transaction writes the replay of the first n rounds and their totals, and is rolled back exactly when the database fails: no insert of a creator finds a row |
| `AccountMachine.TotalsStored` | ledger/accountdb.go:306-403 | flushing computes the totals of each round again and they are the same |
| `AssetListing.PageExact` | ledger/acctupdates.go:316-340 | a page of rows is enough if and only if it yields as many live ones as needed or none is live behind it |
| `AssetListing.ExtrasSuffice` | ledger/acctupdates.go:316-340 | one extra row for every deleted asset is always enough |
| `AssetListing.ListingExact` | ledger/acctupdates.go:279-343 | without wrap-around the listing is the first live assets at or below the bound in descending order |
| `AssetListing.ListingCondition` | ledger/acctupdates.go:279-343 | in general it is, if and only if the unsynced assets suffice, the number of rows to fetch fits 64 bits, or all rows behind the wrapped number are deleted |
| `AssetListing.ListingWraps` | ledger/acctupdates.go:318 | inputs for which the number of rows wraps around and a live asset is missed |
| `AssetListing.ListAssets` | ledger/acctupdates.go:279-343 | the loops compute that listing, with the creator of each asset |
| `AssetListing.LiveIsReplay` | ledger/acctupdates.go:279-308 | cache over database shows the creators of the latest round |
| `AssetNumbers.NumberedIncreasing` | ledger/acctupdates.go:279-343 | over any series of blocks that number their assets from the transaction counter, everything created since the snapshot is newer than all in the database |
| `AssetNumbers.NumberedInserts` | ledger/accountdb.go:364-375 | and no block creates an asset that has a creator row |
| `AssetNumbers.NumberedFlush` | ledger/acctupdates.go:379-478 | and a flush keeps the numbering |
| `AssetNumbers.OwnsBlock` | ledger/accountdb.go:278-304 | the creator table after a block names for each asset the one account that holds it |
| `BlockQueue.EveryRunReadsBack` | ledger/blockqueue.go:78-245 | under every interleaving of puts, writes, advances, forgets and crashes: no panic, each round that is not forgotten reads back the one block put for it, later ones have none, and every tracker can reload |
| `BlockQueue.CommittedForever` | ledger/blockqueue.go:138-145 | a committed round keeps its block through anything that follows, crashes included |
| `BlockQueue.StepKeeps` | ledger/blockqueue.go:78-136 | each step keeps the queue, the rows and the chain in agreement |
| `BlockQueue.NotifyKeeps` | ledger/ledger.go:258-269 | what the trackers ask to keep covers what they read when they reload |
| `BlockQueue.InsertAll` | ledger/blockdb.go:169-195 | a write is refused if and only if its blocks are not the successors of the last row |
| `BlockQueue.CommittedUpTo` | ledger/tracker.go:117-128 | the least round that any tracker needs |
| `TxTail.Tail.LoadFromDisk` | ledger/txtail.go:44-87 | loading the last blocks makes an index that is exact after the latest round |
| `TxTail.Tail.NewBlock` | ledger/txtail.go:92-109 | a new block extends the index; a repeated one is ignored |
| `TxTail.Tail.CommittedUpTo` | ledger/txtail.go:111-123 | pruning keeps the index exact after the committed round |
| `TxTail.Tail.IsDup` | ledger/txtail.go:125-141 | after any blocks, prunings and reloads: no answer exactly before the low-water mark, and for a transaction that may be in the next block the answer of the full history |
| `TxTail.DuplicateExact` | ledger/txtail.go:125-141 | for a transaction alive in the next round the answer is true if and only if some block holds it, whatever was pruned or reloaded |
| `TxTail.SuffixHolds` | ledger/txtail.go:52-60 | blocks that are not loaded hold nothing that is valid after the latest round |
| `OneTimeKeys.DeleteExact` | crypto/onetimesig.go:313-387 | a deletion keeps exactly the identifiers at or after its point, and of a batch it expands only the offsets below the batch size; one in the last 64-bit batch keeps all |
| `OneTimeKeys.SeriesExact` | crypto/onetimesig.go:313-387 | after any series of deletions exactly those identifiers can be signed that could be at first and survived every deletion |
| `OneTimeKeys.OnlyShrinks` | crypto/onetimesig.go:313-387 | over any series of deletions the signable identifiers only shrink, and hold nothing before any deletion point that is not in the last batch |
| `OneTimeKeys.ForwardSecureExact` | crypto/onetimesig.go:320-342 | nothing before a deletion point can be signed afterwards, if and only if its batch is not the last 64-bit number or there is no key for anything before it |
| `OneTimeKeys.LastBatchInsecure` | crypto/onetimesig.go:320-342 | keys for which a deletion up to the last batch deletes nothing |
| `OneTimeKeys.VerifiesExactly` | crypto/onetimesig.go:227-310 | a signature verifies for exactly its identifier and message, and the empty one for nothing |
| `OneTimeKeys.OneTimeSecrets.constructor` | crypto/onetimesig.go:181-206 | a signed key for each batch of the range |
| `OneTimeKeys.OneTimeSecrets.DeleteBeforeFineGrained` | crypto/onetimesig.go:313-387 | deletion in place is the specified deletion |
| `Catchup.EveryRunInOrder` | catchup/service.go:159-356 | for any order of fetches, failures and completions: added blocks have all predecessors in the ledger, authenticated ones their lookback round, nothing is added after a failure, and no send blocks |
| `Catchup.AddsInOrder` | catchup/service.go:223-245 | a block is added right after its predecessor and only once authenticated |
| `Catchup.AuthenticatesAfterLookback` | catchup/service.go:202-221 | a block is authenticated only after its lookback round ended well |
| `Catchup.NoGap` | catchup/service.go:228-231 | the ledger is never offered a block with a gap before it |
| `Catchup.NothingAfterFailure` | catchup/service.go:246-253 | once a round ends badly no later round is added |
| `Catchup.SendsNeverBlock` | catchup/service.go:263-356 | the task, completion and result channels always have room |
| `Catchup.CopiesSuffice` | catchup/service.go:267-269 | two copies of a result are enough for whoever reads it |
| `Catchup.FewOutstanding` | catchup/service.go:301-349 | at most as many rounds are outstanding as there are workers |
| `Auction.PricesFall` | auction/logic.go:148-202 | the price never rises from round to round |
| `Auction.PriceBounds` | auction/logic.go:148-202 | it stays between the last price and its multiple, and the currency target fits 64 bits |
| `Auction.EndPrices` | auction/logic.go:148-202 | the last round sells at the last price and the first one at the full multiple |
| `Auction.PanicExact` | auction/logic.go:182-188 | no round of a validated auction panics if and only if the whole rise times the number of steps fits 64 bits |
| `Auction.ValidatedCanPanic` | auction/logic.go:77-113 | validated parameters for which the first round panics |
| `AuctionRun.RunConserves` | auction/logic.go:213-365 | over every run of deposits and bids each bidder's accepted deposits are what is left plus what was bid, and the total of all bids does not overflow |
| `AuctionRun.BidKeeps` | auction/logic.go:292-365 | an accepted bid is backed by its currency at a price no lower than its round's |
| `AuctionRun.WinningFits` | auction/logic.go:401-413 | the running sum of a settlement never exceeds the total currency |
| `AuctionRun.PriceBelowMax` | auction/logic.go:391-420 | the final price is at most every winning bid's maximum price |
| `AuctionRun.ClearedSells` | auction/logic.go:427-443 | when the bids can buy everything, what stays unsold is less than their number or less than the least amount |
| `AuctionRun.SettlementFair` | auction/logic.go:391-447 | a settlement sells at most what is for sale, each win costs no more than its bid at a price within its maximum, and a cleared auction leaves little unsold |
| `AuctionRun.FindClose` | auction/logic.go:396-420 | the auction closes in the first round that clears or else in the last one; the loop panics exactly when prices do not fit, and counts past the largest round exactly when that is the last one and no round clears |
| `AuctionRun.Award` | auction/logic.go:427-443 | the loop that hands out algos bid by bid |
| `AuctionRun.Settle` | auction/logic.go:391-447 | settlement happens exactly in the other cases, and its outcomes are those of the closing round |
| `AuctionRun.LastRoundWraps` | auction/logic.go:401-413 | parameters whose prices all fit and for which an auction without bids does not settle |
| `AuctionRun.SpentCovered` | auction/logic.go:427-443 | no bidder's wins cost more than that bidder's bids |
| `AuctionRun.AuctionFair` | auction/logic.go:116-447 | from start to settlement, for any messages: deposits are accounted for, no more is sold than is for sale, no bidder pays more than was bid or above a bid's maximum price, and a cleared auction leaves little unsold |
| `AuctionRun.RunningAuction.constructor` | auction/logic.go:116-129 | a new auction has no deposits and no bids |
| `AuctionRun.RunningAuction.Deposit` | auction/logic.go:213-267 | a deposit is taken or dropped as specified, and a dropped one changes nothing |
| `AuctionRun.RunningAuction.Bid` | auction/logic.go:292-365 | a bid is taken, dropped or panics as specified |

## Left out

- The cryptography itself: signatures and credentials are ideal, a sender's weight in a step is a parameter, and a credential is a number in which smaller wins.
- Network messages, relaying, demultiplexing and goroutine pools: the player's model keeps the actions that vote, propose, ensure and reset the clock, and leaves out those that relay or request a check.
- Encoding, files and SQL: a database is a map with transactions that succeed or fail as a whole; a record that cannot be decoded is not modelled.
- The tree of state machines below the player: the class that models the player keeps them as values by round, so aliasing between them is not captured.
- `voteStepFresh`: quorums are admitted for every step of a fresh period, which for single votes allows more runs than the code; for bundles, as which all quorums of the runs constructed here can arrive, the code admits them too.
- NoSelfContradiction: assumes that at most one non-bottom value reaches a next quorum in a period and that the player stays below the fast-recovery steps.
- Propose-step votes in the crash protocol: assembling and reproposing are not persisted by the code.
- Block proposals by the pseudonode, the ensure action's effect on the ledger, and clocks: a deadline is a number that nothing waits for.
- `lastRelevant` and `authenticator`: they only feed verification bookkeeping and relaying.
- Transaction checks, minimum balances and application calls: a transaction is a series of transfers and at most one asset creation or deletion; key registration, asset holdings and changes of asset keys are left out.
- The counters of rewards paid to sender and receiver in a transfer, and the two hard-coded test network corrections of the rewards pool.
- Transaction leases: only the transaction-identifier answer of duplicate detection is claimed.
- AuctionRun.FindClose: what the loop does after it counts past the largest round: it panics if the auction starts after round 0, and otherwise counts all bids again.
- The database driver's own limits on 64-bit query parameters.
- TxTail.Tail.NewBlock: a block is new or still in the recent window, as the ledger calls it.
- EvaluatedBlockOk: all money, at the old and the new level together, fits 64 bits.
- The account tracker's reload and the reset of an accounts database that is ahead of the blocks: the block queue shows that the reset is not taken and the blocks for a reload are kept.
- Protocol upgrades: consensus parameters such as the reward unit, lookback and transaction lifetime are constant.
- The cached pages of `ledger/roundlru.go`, and the cancellation of an auction, which returns an empty outcome.
