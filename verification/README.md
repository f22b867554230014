# OCR2 price feeds on Cosmos: a verified model

A price feed consists of a contract that stores what a quorum of oracles reports and pays them for
it, of the nodes that build those reports and read the contract back, and of the formats both sides
share. This project models those parts in Dafny and proves what they promise, for every input and
over every run.

- **The aggregator contract** as a state machine (`AggregatorSpec`), as a class whose methods work
  on storage the way the contract does (`AggregatorContract`), and as whole runs on a chain with
  token balances, other people's transfers and failing token calls (`AggregatorRuns`).
  `AggregatorInvariant`, `AggregatorPayouts` and `AggregatorAccounting` hold what every step keeps,
  what is owed and paid, and what each message does to balance and debts; `AggregatorSolvency` where
  tokens come from and go over whole runs and when the balance covers the debts; `AggregatorGuards`
  and `AggregatorErrors` tables of who may send which message, when it goes through or with which
  error it fails, what it stores and whom it pays, written out in numbers and byte positions;
  `Quorum` the signature loop; `Reimbursement` the gas arithmetic; `AggregatorNode` what the
  contract and the nodes agree on; `AggregatorWitness` concrete runs that reach the exceptions
  listed below.
- **The formats**: reports (`Report`, `Medians`), configuration digests (`Digest`) and the
  configuration event (`ConfigEvent`), written by one language and read by the other, and their
  layouts position by position (`ConfigLayouts`).
- **The protobuf codec** used for Injective: varints, tags and skipping (`Wire`), records written
  back to front and decoded field by field (`Records`, `Messages`), and one module for each of five
  messages; `MessageLayouts` has their bytes written out. It follows the Protocol Buffers Encoding
  specification, sections "Base 128 Varints", "Message Structure" and "Length-Delimited Records".
- **The transaction manager**: the message table (`MsgTable`), the life of a message as a machine
  whose steps are committed database transactions and crashes (`TxmProtocol`, `TxmRuns`), the
  manager itself, whose every behaviour is a run of that machine (`TxmBatches`, `TxmSender`), and
  the simulation of batches (`BatchSimulation`).
- **The polled cache** in front of the contract reader (`CacheProtocol`, `ContractCache`).
- **The phase proxy**, on its own (`ProxySpec`, `ProxyContract`) and in front of live aggregators
  (`ProxyRuns`, `ProxyWitness`); `ProxyGuards` says who moves it, where its phases come from and
  which record a round id names.

`Runs` has the induction principles all machines share; `Seqs`, `Bytes` and `Wrappers` are small
vocabularies. A failed contract message reverts all its writes; inside a class method partial writes
may remain, and `Execute` restores the storage. Storage maps are iterated in the byte-wise order of
their keys. Strings are sequences of bytes. Shifts and masks are written as multiplication, division
and remainder. Answers of clients and readers are parameters; what databases and other callers do is
arbitrary inside the methods. A database that fails only finitely often is a counter of the accesses
still to fail.

Where the proofs found less than one might expect:

- Paid plus owed equals credited for everyone exactly when no billing change re-prices rounds that
  the payout before it skipped because nothing was owed for them
  (`AggregatorAccounting.ExactAccountingIff`). A change from a zero observation payment does, in a
  run of a fresh contract (`AggregatorWitness.WindfallHappens`).
- The balance covers the debts throughout a run exactly when it covers what each transmission and
  each billing change adds (`AggregatorSolvency.SolventThroughoutIff`). The contract does not check
  this; a run without deposits ends with a debt and no balance
  (`AggregatorWitness.InsolvencyHappens`).
- The event of an accepted configuration parses exactly when its version is below 2^63
  (`AggregatorNode.NodeAgreesOnConfig`); the contract accepts larger ones
  (`AggregatorWitness.HighVersionIsLost`, and `LostVersionHappens` for version 2^63).
- The node ignores bytes behind a report and refuses one without observations, the decoder of the
  contract the other way round; apart from these two cases they accept the same reports
  (`Report.ReadersAcceptIff`, with `ReadersDisagree` for a report of each kind) and read the same
  value from them (`Report.ReadersAgreeOnValue`). The contract itself refuses a report without
  observations when it is transmitted (`AggregatorNode.EmptyReportIsRefused`).
- The node writes the price of a report with a sign and the contract reads it without: it reads what
  was written exactly if the price is not negative (`Report.PriceReadsBackIff`), reads -1 as 2^128 -
  1 (`Report.NegativePriceIsMisread`), and reimburses the sender accordingly
  (`AggregatorNode.NegativePriceIsReimbursed`).
- The last element of a packed field may run past the length of the field
  (`ObservationsCountsMessage.PackedMayRunPastItsLength`). It does exactly when the last byte of the
  field has a continuation bit (`ObservationsCountsMessage.PackedStopsAtItsLengthIff`).
- The configuration digest writes transmitters without their lengths, so two configurations that cut
  the same transmitter bytes differently share one preimage (`Digest.VaryingAddressLengthCollides`),
  and both can be accepted from one state (`AggregatorWitness.OneDigestForTwoConfigurations`); among
  those with equally many transmitter bytes nothing else does (`Digest.PreimageEqualIff`), and
  addresses of one length exclude it (`Digest.PreimageUnambiguous`).
- A cache asked for block 0 may serve the zero configuration that no reader ever gave
  (`CacheProtocol.ZeroConfigIsServed`), exactly until a fetched configuration is stored
  (`CacheProtocol.ZeroConfigServedIff`).
- A stored configuration carries the time at which it was fetched, not the earlier time at which its
  block was reported as the latest, so it may be served when that report is older than the TTL
  (`CacheProtocol.StaleConfigIsServed`). It never is exactly if the stamp is the time of the report
  (`CacheProtocol.FreshIff`), which a refresh makes it, and a fetch if it takes no time.
- Two overlapping requests for one contract leave two messages waiting
  (`TxmRuns.OverlappingRequestsQueueTwo`); comments in the code expect one. One is left exactly when
  none was waiting before the insert; if nothing is claimed in between, this means that every insert
  of another request in between was cancelled again (`TxmRuns.EnqueueLeavesOneQueuedIff`).
- Proxy round ids from 2^48 on are answered as if their upper 16 bits were zero
  (`ProxySpec.UpperBitsAreIgnored`), so the round answered has the id asked for exactly below 2^48
  (`ProxySpec.AnswersWithTheIdIff`; `ProxyWitness.LargeIdIsAnswered` is a proxy that answers one).
- Confirming a contract without rounds stops the answers for the latest round
  (`ProxyRuns.LatestAnswersAlongIff`, `EmptyPhaseStopsAnswers`).

## Model

| member | source | states |
|---|---|---|
| AggregatorAccounting.Accounting | contracts/ocr2/src/contract.rs:864-868 | over any run of a fresh contract, for every address: paid out plus owed now equals credited (one observation payment per accepted transmission, transmission payment and reimbursement to the sender) plus what a billing change re-prices |
| AggregatorAccounting.ExactAccountingIff | contracts/ocr2/src/contract.rs:1193-1235 | paid plus owed equals credited for everyone exactly when no billing change of the run finds a transmitter with pending rounds that is owed nothing and prices those rounds |
| AggregatorWitness.WindfallHappens | contracts/ocr2/src/contract.rs:1193-1235 | a concrete run from instantiation after which a transmitter is owed more than it was credited, because a billing change priced a round that had been free |
| AggregatorSolvency.TokenConservation | contracts/ocr2/src/contract.rs:1286-1328 | over any run and for any token, the contract's balance and what it transferred to others add up to what it held and received |
| AggregatorSolvency.PayeesAreCredited | contracts/ocr2/src/contract.rs:1286-1375 | at every point of a run a message pays oracles by transfers to their payees of that moment, and the balance of everyone but the contract rises by the transfers that name it |
| AggregatorSolvency.DebtConservation | contracts/ocr2/src/contract.rs:1330-1446 | over any run of a fresh contract, all debts at the end and all payouts add up to what transmissions earned and billing changes re-priced |
| AggregatorSolvency.FundsConservation | contracts/ocr2/src/contract.rs:1094-1446 | over any run of a fresh contract, across changes of token, the balance at the end with all payouts and withdrawals is the first balance with all deposits and returned payouts |
| AggregatorSolvency.StepSolventIff | contracts/ocr2/src/contract.rs:93-204 | a balance that covers all debts still does after a step if and only if a transmission or billing change adds no more to the debts than the balance exceeds them |
| AggregatorSolvency.SolventThroughoutIff | contracts/ocr2/src/contract.rs:1377-1446 | the balance covers the debts at every point of a run if and only if it covers what each transmission and each billing change of the run adds |
| AggregatorWitness.InsolvencyHappens | contracts/ocr2/src/contract.rs:1193-1235 | a concrete run from instantiation ends with a debt that no balance covers; nothing in the contract refuses it |
| AggregatorAccounting.TransmitLedger | contracts/ocr2/src/contract.rs:864-868 | one transmission raises every debt by one observation payment, and the sender's also by payment and reimbursement |
| AggregatorAccounting.AcceptLedger | contracts/ocr2/src/contract.rs:415-458 | accepting a proposal pays each debt in full and leaves none |
| AggregatorAccounting.SetBillingLedger | contracts/ocr2/src/contract.rs:1193-1235 | a billing change pays each debt in full; what is owed afterwards is the new price of rounds skipped by the payout |
| AggregatorAccounting.SetLinkTokenLedger | contracts/ocr2/src/contract.rs:1094-1155 | a token change moves debt to payouts one for one |
| AggregatorAccounting.WithdrawPaymentLedger | contracts/ocr2/src/contract.rs:1246-1262 | a withdrawal moves one debt to a payout and no other |
| AggregatorAccounting.MessageLedger | contracts/ocr2/src/contract.rs:93-204 | the ledger equation for every message |
| AggregatorAccounting.MessagePayees | contracts/ocr2/src/contract.rs:93-204 | every transfer any message makes on behalf of an oracle goes to the payee that oracle has |
| AggregatorAccounting.WithdrawPaymentKeepsMargin | contracts/ocr2/src/contract.rs:1246-1328 | withdrawing a payment keeps balance minus total debt |
| AggregatorAccounting.AcceptPaysAllDebts | contracts/ocr2/src/contract.rs:415 | after accepting a proposal nothing is owed, and the balance fell by the total debt |
| AggregatorAccounting.SetBillingPaysAllDebts | contracts/ocr2/src/contract.rs:1193-1235 | after a billing change nothing is owed if and only if the change is safe; the balance fell by the old debt |
| AggregatorAccounting.SetLinkTokenLeavesNothing | contracts/ocr2/src/contract.rs:1094-1155 | after a token change neither an old-token balance nor a debt is left |
| AggregatorAccounting.WithdrawFundsStaysSolvent | contracts/ocr2/src/contract.rs:1377-1419 | only what is not owed can be withdrawn, the smaller of amount and surplus; a balance that covers the debt still does |
| AggregatorPayouts.PayOutEffect | contracts/ocr2/src/contract.rs:1330-1375 | a payout empties the debts of the listed transmitters and leaves the others; its transfers add up to the sum paid, and each is made for one of these oracles and goes to the payee of that oracle |
| AggregatorPayouts.PayOutSucceedsIff | contracts/ocr2/src/contract.rs:1330-1375 | a payout succeeds exactly when everyone owed something has a payee and the total fits |
| AggregatorPayouts.PayAllFor | contracts/ocr2/src/contract.rs:1330-1375 | what is transferred on behalf of an oracle, to the payee of that oracle, is what it was owed |
| AggregatorPayouts.SettledOwesNothing | contracts/ocr2/src/contract.rs:1330-1375 | after paying all, nobody is owed anything under the same billing |
| AggregatorPayouts.PayAllSettlesEverything | contracts/ocr2/src/contract.rs:1330-1375 | the returned total is the total debt and the debt afterwards is zero |
| AggregatorPayouts.TotalOwedChange | contracts/ocr2/src/contract.rs:1265-1274 | changing one transmitter changes the total debt by that transmitter's difference |
| AggregatorPayouts.TotalLinkDueIsTotalOwed | contracts/ocr2/src/contract.rs:1421-1446 | the single pass over rounds and reimbursements gives the sum of all debts whenever it fits, and aborts otherwise |
| AggregatorPayouts.InstallSucceedsIff | contracts/ocr2/src/contract.rs:442-458 | the oracle loop succeeds exactly when signers are distinct and transmitters are distinct |
| AggregatorPayouts.InstallMembers | contracts/ocr2/src/contract.rs:442-458 | exactly the proposed signers and transmitters are installed, as many as proposed, all starting at the current round |
| AggregatorPayouts.InstallPayeeOf | contracts/ocr2/src/contract.rs:442-458 | each installed transmitter has the proposed payee |
| AggregatorInvariant.StepKeeps | contracts/ocr2/src/contract.rs:93-204 | every message keeps the invariant: rounds 1 to latest recorded within the answer bounds, no pending round count below zero, payees for all transmitters, n = transmitters = signers, f >= 1, 3f < n <= 31, proposals sized and numbered |
| AggregatorInvariant.TransmitKeeps | contracts/ocr2/src/contract.rs:939-1014 | a transmission opens exactly the next round and moves (count, epoch, round) up to the context's |
| AggregatorInvariant.InstallKeeps | contracts/ocr2/src/contract.rs:419-491 | an accepted proposal gives a well-sized oracle set and raises the configuration count |
| AggregatorInvariant.StepOrder | contracts/ocr2/src/contract.rs:799-800 | transmissions and accepted proposals move the order strictly up, nothing else moves it |
| AggregatorGuards.OnlyCallersSucceed | contracts/ocr2/src/contract.rs:93-204 | against a table of callers: no message goes through for anyone but the owner, the owner of the proposal, someone with access, the payee, the proposed payee or a transmitter, as the message demands |
| AggregatorGuards.OthersChangeNothing | contracts/ocr2/src/contract.rs:93-204 | at every point of a run a message of anyone else changes neither state nor balances |
| AggregatorGuards.BalanceFallsByAuthority | contracts/ocr2/src/contract.rs:1377-1419 | over runs, tokens leave the contract only by an authorised caller, and other than to payees only if the owner, or for a withdrawal someone with access, sends them |
| AggregatorGuards.StepSucceedsIff | contracts/ocr2/src/contract.rs:93-204 | in every reachable state a message goes through exactly if its caller is in that table and the conditions of a second table hold |
| AggregatorErrors.StepFailsWith | contracts/ocr2/src/contract.rs:93-204 | in every reachable state a message fails with the error of the first of its checks that does not hold, in the order of a table, and goes through if all hold |
| AggregatorErrors.CollectFails | contracts/ocr2/src/contract.rs:829-846 | the signature loop stops at the first bad key, a stranger's or a repeated one |
| AggregatorGuards.StepSends | contracts/ocr2/src/contract.rs:93-204 | in every reachable state the transfers of each message are exactly those of a table: who is paid, how much, in which token, on whose behalf |
| AggregatorGuards.ProposalsAreAnnounced | contracts/ocr2/src/contract.rs:310-538 | the id of a new proposal, on freezing the hash that acceptance asks for, on acceptance all attributes with the block of the configuration before |
| AggregatorGuards.SignedBytesUnambiguous | contracts/ocr2/src/contract.rs:815-824 | for contexts of 96 bytes, equal signed bytes mean equal report and equal context |
| AggregatorGuards.TransmissionIsSigned | contracts/ocr2/src/contract.rs:809-849 | an accepted transmission was verified for the hash of four length bytes, report and context |
| AggregatorGuards.SignaturesBindContext | contracts/ocr2/src/contract.rs:809-849 | signatures verified for one report and context are those of another only if the hash collides |
| AggregatorGuards.ContextFields | contracts/ocr2/src/contract.rs:781-789 | digest in bytes 0 to 31 of the context, epoch in 59 to 62, round in 63 |
| AggregatorGuards.TransmitIff | contracts/ocr2/src/contract.rs:771-871 | exactly when a transmission goes through: transmitter, next context, signed quorum, whole report with its middle value in bounds, arithmetic that fits |
| AggregatorGuards.TransmitStores | contracts/ocr2/src/contract.rs:939-1014 | and what it stores, in byte positions and numbers |
| AggregatorGuards.TransmitEarns | contracts/ocr2/src/contract.rs:864-868 | one transmission raises every debt by 10^9 times the observation payment, and that of its sender by 10^9 times the transmission payment and the gas, spelled out |
| AggregatorGuards.OwedInNumbers | contracts/ocr2/src/contract.rs:1265-1274 | a debt is the credited amount and 10^9 times the observation payment for every round since the last payout |
| AggregatorGuards.AcceptIff | contracts/ocr2/src/contract.rs:395-458 | exactly when a proposal is accepted: frozen, known by its hash, distinct oracles, a payout that fits |
| AggregatorGuards.AcceptSetsConfig | contracts/ocr2/src/contract.rs:461-491 | the configuration in force afterwards, with bytes 0 and 2 in front of its digest |
| AggregatorGuards.AcceptSetsOracles | contracts/ocr2/src/contract.rs:436-458 | the signers, transmitters and payees in force afterwards are those of the proposal |
| AggregatorGuards.OraclesFrame | contracts/ocr2/src/contract.rs:93-204 | which messages leave rounds, oracles and configuration alone |
| AggregatorGuards.SettingsFrame | contracts/ocr2/src/contract.rs:93-204 | which leave token and billing alone, and what the others set them to |
| AggregatorGuards.PayeesFrame | contracts/ocr2/src/contract.rs:93-204 | which leave payees and proposed payees alone, and what the others set them to |
| AggregatorGuards.ProposalsFrame | contracts/ocr2/src/contract.rs:93-204 | which proposals a message touches, and what it makes of them |
| AggregatorRuns.RunTransfersDebits | contracts/ocr2/src/contract.rs:1286-1328 | transfers run in message order and debit the contract by their sum |
| AggregatorRuns.ReachableInv | contracts/ocr2/src/contract.rs:40-90 | the invariant holds after every run of a fresh contract |
| AggregatorRuns.RoundsWriteOnce | contracts/ocr2/src/contract.rs:1003-1014 | a recorded round reads the same at every later point of a run |
| AggregatorRuns.FinalizedStaysFrozen | contracts/ocr2/src/contract.rs:310-393 | proposal ids are never reused and a finalized proposal keeps its content while it exists |
| AggregatorRuns.OrderAlong | contracts/ocr2/src/contract.rs:799-800 | the order never falls along a run |
| AggregatorRuns.DigestOfCurrentConfig | contracts/ocr2/src/state.rs:151-190 | the stored digest is always the masked hash of the preimage of the last accepted configuration, whose counts are all distinct |
| AggregatorRuns.NoReplay | contracts/ocr2/src/contract.rs:783-807 | no two accepted transmissions of a run carry the same digest, epoch and round, if the hash does not collide on the run's preimages |
| AggregatorNode.NodeAgreesOnConfig | contracts/ocr2/src/contract.rs:461-529 | for an accepted proposal the node parses the event exactly when the version is below 2^63, recovers the configuration with oracles in order, and computes the on-chain digest |
| AggregatorWitness.AnyVersionIsAccepted | contracts/ocr2/src/contract.rs:395-529 | from instantiation, five messages lead to an accepted configuration of any given version |
| AggregatorWitness.HighVersionIsLost | pkg/cosmos/adapters/cosmwasm/contract_reader.go:89-203 | in such a run, for every version from 2^63 on, the contract accepts and the node does not parse the event |
| AggregatorWitness.LostVersionHappens | pkg/cosmos/adapters/cosmwasm/contract_reader.go:89-203 | this happens with version 2^63 and concrete library functions |
| AggregatorNode.DigestPinsProposal | contracts/ocr2/src/state.rs:133-148 | equal proposal digests mean equal content, if the hash separates the two preimages |
| AggregatorNode.TransmissionHasHonestSigner | contracts/ocr2/src/contract.rs:809-849 | an accepted transmission carries f + 1 signatures of distinct configured signers, one of them outside any f faulty ones, and the verifier accepted exactly those pairs for the hash of four length bytes, report and report context |
| AggregatorNode.StoredAnswerIsNodeMedian | contracts/ocr2/src/contract.rs:953-1014 | the answer stored for the next round is what the node reads from the same report, and within the bounds |
| AggregatorNode.StoredRoundBetweenHonest | contracts/ocr2/src/contract.rs:953-1014 | with at most f of 2f + 1 observations arbitrary, stored answer and timestamp lie between honest ones, and if no honest price is negative the sender is reimbursed at a price between honest ones |
| AggregatorNode.NegativePriceIsReimbursed | contracts/ocr2/src/contract.rs:970-985 | a negative median price is reimbursed as that price plus 2^128 |
| AggregatorNode.EmptyReportIsRefused | contracts/ocr2/src/contract.rs:953-957 | a transmission whose report decodes to no observations fails |
| AggregatorContract.Aggregator.constructor | contracts/ocr2/src/contract.rs:40-90 | storage starts as the initial state |
| AggregatorContract.Aggregator.ExecuteBeginProposal | contracts/ocr2/src/contract.rs:310-339 | the next id with an empty proposal, or abort on overflow; response and errors included |
| AggregatorContract.Aggregator.ExecuteClearProposal | contracts/ocr2/src/contract.rs:341-357 | the proposal is gone; only its owner or the contract owner may |
| AggregatorContract.Aggregator.ExecuteFinalizeProposal | contracts/ocr2/src/contract.rs:359-393 | the proposal is frozen and its digest published |
| AggregatorContract.Aggregator.ExecuteProposeConfig | contracts/ocr2/src/contract.rs:541-587 | the oracle list of the proposal is replaced after all size checks, in the order of the code |
| AggregatorContract.Aggregator.ExecuteProposeOffchainConfig | contracts/ocr2/src/contract.rs:589-617 | version and bytes of the proposal are replaced |
| AggregatorContract.Aggregator.PayOracles | contracts/ocr2/src/contract.rs:1330-1375 | the loop over sorted transmitters is the payout fold |
| AggregatorContract.Aggregator.ClearTransmitters | contracts/ocr2/src/contract.rs:419-426 | the loop empties the map |
| AggregatorContract.Aggregator.ClearSigners | contracts/ocr2/src/contract.rs:427-433 | the loop empties the set |
| AggregatorContract.Aggregator.InstallOracles | contracts/ocr2/src/contract.rs:442-458 | the loop is the installation fold, including where it stops |
| AggregatorContract.Aggregator.SaveConfig | contracts/ocr2/src/contract.rs:461-491 | the configuration record after acceptance |
| AggregatorContract.Aggregator.ExecuteAcceptProposal | contracts/ocr2/src/contract.rs:395-538 | storage and response are those of the acceptance step; a failure reverts |
| AggregatorContract.Aggregator.VerifyReport | contracts/ocr2/src/contract.rs:781-849 | the verdict of all checks made before the report is read, in their order; what is accepted was verified for the hash of four length bytes, report and report context |
| AggregatorContract.Aggregator.RecordReport | contracts/ocr2/src/contract.rs:939-1026 | the next round is stored, or the error of the first failing check |
| AggregatorContract.Aggregator.ExecuteTransmit | contracts/ocr2/src/contract.rs:771-871 | storage is that of the transmission step |
| AggregatorContract.Aggregator.ExecuteSetLinkToken | contracts/ocr2/src/contract.rs:1094-1155 | storage, payouts and the transfer of the rest are those of the token change |
| AggregatorContract.Aggregator.ExecuteSetBilling | contracts/ocr2/src/contract.rs:1193-1235 | storage and payouts are those of the billing change |
| AggregatorContract.Aggregator.ExecuteWithdrawPayment | contracts/ocr2/src/contract.rs:1246-1262 | storage and transfer are those of the withdrawal |
| AggregatorContract.Aggregator.ComputeLinkDue | contracts/ocr2/src/contract.rs:1421-1446 | the loop is the single-pass sum |
| AggregatorContract.Aggregator.ExecuteWithdrawFunds | contracts/ocr2/src/contract.rs:1377-1419 | the transfer of the smaller of amount and surplus |
| AggregatorContract.Aggregator.ExecuteTransferPayeeship | contracts/ocr2/src/contract.rs:1526-1558 | the proposed payee is recorded, with the checks in order |
| AggregatorContract.Aggregator.ExecuteAcceptPayeeship | contracts/ocr2/src/contract.rs:1560-1586 | the payee changes and the proposal goes |
| AggregatorContract.Aggregator.Dispatch | contracts/ocr2/src/contract.rs:93-204 | each message runs its step |
| AggregatorContract.Aggregator.Execute | contracts/ocr2/src/contract.rs:93-204 | a failed message leaves the storage unchanged |
| Quorum.BinarySearch | contracts/ocr2/src/contract.rs:837-845 | finds the key, or the rank where it keeps the keys sorted |
| Quorum.CollectSignatures | contracts/ocr2/src/contract.rs:826-846 | the loop returns what the collection function defines, including the first rejection |
| Quorum.CollectSorted | contracts/ocr2/src/contract.rs:837-845 | the collected keys are strictly ascending |
| Quorum.CollectKeepsPairs | contracts/ocr2/src/contract.rs:837-845 | keys and signatures stay aligned: their pairs are the input entries, as often as given |
| Quorum.CollectMembers | contracts/ocr2/src/contract.rs:829-846 | the collected keys are exactly the keys of the entries, all of them signers |
| Quorum.CollectSucceedsIff | contracts/ocr2/src/contract.rs:829-846 | it succeeds exactly when every key is a signer and none is repeated |
| Quorum.QuorumHasHonestSigner | contracts/ocr2/src/contract.rs:809-846 | f + 1 collected keys include one outside any f faulty signers |
| Reimbursement.ErrorBound | contracts/ocr2/src/contract.rs:1494-1520 | the truncated result never exceeds the exact product of adjusted gas, price and juels, with gas = per signature * signatures + base and the defaults 4096, 146000 and 140 %, and falls short by less than 1 + (juels / 10^18)(1 + adjusted gas) |
| Reimbursement.ReimbursementIff | contracts/ocr2/src/contract.rs:1494-1520 | in the same terms: exactly when the arithmetic fits, and then the value with every truncation |
| Reimbursement.Monotone | contracts/ocr2/src/contract.rs:1494-1520 | the reimbursement is monotone in every argument, and succeeds where a larger one does |
| Medians.MiddleIsMedian | contracts/ocr2/src/contract.rs:962-967 | the element at n/2 of a sorting is the median by rank |
| Medians.MedianIsUnique | pkg/cosmos/adapters/cosmwasm/report.go:44-69 | rank determines the median, so stability of the sorts does not matter |
| Medians.MedianBetweenHonest | pkg/cosmos/adapters/cosmwasm/report.go:44-69 | with at most f of 2f + 1 values arbitrary the median lies between two honest ones |
| Report.SortSlice | pkg/cosmos/adapters/cosmwasm/report.go:44-63 | the in-place sort leaves a sorted permutation |
| Report.SortAndPick | pkg/cosmos/adapters/cosmwasm/report.go:44-63 | median timestamp and price from the two first sorts, values sorted by the last |
| Report.Serialize | pkg/cosmos/adapters/cosmwasm/report.go:65-97 | the byte layout with value and observer side by side, or the error of the first value out of range |
| Report.BuildReport | pkg/cosmos/adapters/cosmwasm/report.go:38-97 | the report encodes sorted values with their observers and the median timestamp and price, and has the maximal length for its size; decoding it gives the pairs of value and observer that went in, as often as they did |
| Report.MedianFromReport | pkg/cosmos/adapters/cosmwasm/report.go:103-135 | the value at index n/2 or the error of the first failing check |
| Report.EncodeReport | pkg/cosmos/adapters/cosmwasm/report.go:99-101 | the length of a report is the one announced |
| Report.ReportRoundTrip | contracts/ocr2/src/contract.rs:882-936 | the contract decodes a built report to the sorted values, their observers, timestamp and price |
| Report.ReportLayout | pkg/cosmos/adapters/cosmwasm/report.go:72-96 | where each part of a built report stands: timestamp in bytes 0 to 3, the i-th observer in byte 4 + i, the count in byte 36, the i-th value in 16 bytes from 37 + 16 i, the price behind them |
| Report.ObserversAligned | pkg/cosmos/adapters/cosmwasm/report.go:65-70 | in the decoded report the i-th value and the i-th observer belong to one and the same observation, and the observers behind the last are zero |
| Report.AttributionsKept | pkg/cosmos/adapters/cosmwasm/report.go:65-70 | so the pairs of value and observer are those of the input as a multiset, whatever the order of sorting |
| Report.NodeReadsStoredAnswer | contracts/ocr2/src/contract.rs:953-967 | for every report the contract accepts with an observation, the node reads the value the contract stores |
| Report.NodeAcceptsTrailingBytes | pkg/cosmos/adapters/cosmwasm/report.go:103-135 | the node ignores bytes behind a report that the contract refuses |
| Report.ReadersAcceptIff | contracts/ocr2/src/contract.rs:882-936 | for every byte string: exactly when the decoder of the contract reads it, exactly when the node does, and exactly when the two agree on that, as a condition on its length and its count byte |
| Report.ReadersAgreeOnValue | pkg/cosmos/adapters/cosmwasm/report.go:103-135 | whenever both readers accept, the node reads the middle one of the observations the contract decodes |
| Report.ReadersDisagree | pkg/cosmos/adapters/cosmwasm/report.go:103-135 | a built report with one more byte is read by the node and not by the decoder of the contract, a report of no observations the other way round |
| Report.StoredAnswerBetweenHonest | contracts/ocr2/src/contract.rs:882-936 | the decoded answer and timestamp lie between honest inputs, and so does the decoded price unless the median price is negative, which it is not if no honest price is |
| Report.PriceReadsBackIff | pkg/cosmos/adapters/cosmwasm/report.go:91-96 | the contract decodes the price the node wrote if and only if it is not negative; otherwise it decodes the price plus 2^128 |
| Report.NegativePriceIsMisread | contracts/ocr2/src/contract.rs:917-923 | a price of -1 is decoded as 2^128 - 1 |
| Digest.ConfigDigestFromData | contracts/ocr2/src/state.rs:151-190 | the hasher is fed the preimage, two bytes are masked, a long chain id aborts |
| Digest.ConfigDigest | pkg/cosmos/adapters/cosmwasm/config_digester.go:33-116 | the buffer writes the same preimage or refuses what it cannot encode |
| Digest.ProposalDigest | contracts/ocr2/src/state.rs:133-148 | the hasher is fed the interleaved oracle preimage |
| Digest.BuildOnchainConfig | contracts/ocr2/src/state.rs:95-118 | version byte and both bounds sign-extended to 24 bytes |
| Digest.SignExtension | contracts/ocr2/src/state.rs:100-115 | eight sign bytes before the 16-byte number are its 24-byte two's complement |
| Digest.OnchainConfigInjective | contracts/ocr2/src/state.rs:95-118 | equal on-chain configurations mean equal bounds |
| Digest.PreimageUnambiguous | contracts/ocr2/src/state.rs:161-184 | with 32-byte signers and addresses of one length, equal preimages mean equal parts |
| Digest.PreimageEqualIff | contracts/ocr2/src/state.rs:161-184 | with 32-byte signers and equally many transmitter bytes, two preimages are equal if and only if every other field is equal and the transmitters concatenate to the same bytes |
| Digest.VaryingAddressLengthCollides | contracts/ocr2/src/state.rs:161-184 | whatever the other fields, two lists of four distinct transmitters that cut the same bytes differently give one and the same digest preimage |
| AggregatorWitness.OneDigestForTwoConfigurations | contracts/ocr2/src/state.rs:161-184 | in a run from instantiation two finalized proposals with different transmitters can both be accepted from one state, and either gives the same configuration digest |
| Digest.ProposalPreimageUnambiguous | contracts/ocr2/src/state.rs:133-148 | the same for the proposal digest |
| ConfigLayouts.ConfigPreimageLayout | contracts/ocr2/src/state.rs:161-184 | the digest preimage part by part and position by position: chain id, contract, count, all signers, all transmitters, f, on-chain part, version, off-chain part |
| ConfigLayouts.ProposalPreimageLayout | contracts/ocr2/src/state.rs:133-148 | the proposal preimage likewise, each oracle as signer, transmitter, payee |
| ConfigLayouts.OnchainConfigLayout | contracts/ocr2/src/state.rs:95-118 | version byte 1, the lower bound in bytes 1 to 24, the upper in 25 to 48 |
| ConfigEvent.ParseAttributes | pkg/cosmos/adapters/cosmwasm/contract_reader.go:89-203 | the loop returns what attribute-wise parsing defines: duplicates, unknown keys, missing keys |
| ConfigEvent.EventRoundTrip | pkg/cosmos/adapters/cosmwasm/contract_reader.go:89-203 | the emitted attributes parse exactly when there is an oracle, f < 128 and version < 2^63, and then give back the configuration in order |
| ConfigLayouts.EventLayout | contracts/ocr2/src/contract.rs:494-529 | keys and values of the emitted attributes in their order |
| Wire.SovIsLength | pkg/cosmos/adapters/injective/types/ocr.pb.go:3325-3327 | the bit-length formula is the number of bytes written |
| Wire.VarintRoundTrip | pkg/cosmos/adapters/injective/types/ocr.pb.go:2787-2797 | reading a written varint gives its value and length, whatever follows |
| MessageLayouts.VarintIsBase128 | pkg/cosmos/adapters/injective/types/genesis.pb.go:1009-1019 | a written varint is the number in base 128, least significant group first, continuation bits on all bytes but the last, no longer than need be |
| MessageLayouts.ReadVarintMeans | pkg/cosmos/adapters/injective/types/ocr.pb.go:4252-4265 | on any bytes the loop gives the base-128 number up to the first byte without a continuation bit, cut to the width of its type, or overflow after ten bytes, or end of data |
| Wire.BlobRoundTrip | pkg/cosmos/adapters/injective/types/ocr.pb.go:4294-4325 | reading a written length-delimited payload gives it back |
| Wire.DecodeVarint | pkg/cosmos/adapters/injective/types/ocr.pb.go:4252-4265 | the shift loop is the varint function, overflow and end of data included |
| Wire.SkipOne | pkg/cosmos/adapters/injective/types/ocr.pb.go:7173-7239 | one round of skipping |
| Wire.SkipField | pkg/cosmos/adapters/injective/types/ocr.pb.go:7169-7246 | the skipping loop terminates and finds the end of one field, nested groups included |
| Records.PutVarint | pkg/cosmos/adapters/injective/types/genesis.pb.go:1009-1019 | exactly the bytes in front of the end are written, and they are the varint |
| Records.PutNum | pkg/cosmos/adapters/injective/types/ocr.pb.go:1877-1881 | number field: value, then tag, written in front |
| Records.PutBin | pkg/cosmos/adapters/injective/types/ocr.pb.go:1870-1876 | bytes field: payload, length, tag, written in front |
| Records.TagAt | pkg/cosmos/adapters/injective/types/ocr.pb.go:4252-4273 | tag, with end-group and illegal numbers refused |
| Records.NumberAt | pkg/cosmos/adapters/injective/types/ocr.pb.go:4275-4293 | a number field, or wrong wire type |
| Records.BlobAt | pkg/cosmos/adapters/injective/types/ocr.pb.go:4294-4325 | a bytes field with the signed length and index checks |
| Records.SkipAt | pkg/cosmos/adapters/injective/types/ocr.pb.go:6097-6110 | an unknown field is passed over inside the buffer |
| Records.SkipChunk | pkg/cosmos/adapters/injective/types/ocr.pb.go:7169-7246 | a well-formed field of any type, with anything nested in it, is passed over exactly |
| Records.DecodeFields | pkg/cosmos/adapters/injective/types/ocr.pb.go:4249-4484 | decoding encoded fields applies them in order |
| Records.DecodeItems | pkg/cosmos/adapters/injective/types/ocr.pb.go:6097-6110 | unknown fields anywhere in between do not change what is decoded |
| Records.DecodeWithUnknown | pkg/cosmos/adapters/injective/types/ocr.pb.go:6097-6110 | the same for a message's own fields among unknown ones |
| Messages.SizeOfEach | pkg/cosmos/adapters/injective/types/ocr.pb.go:2931-2942 | the size of a repeated field |
| Messages.PutEach | pkg/cosmos/adapters/injective/types/ocr.pb.go:1894-1911 | a repeated field written from last to first |
| ContractConfigMessage.Size | pkg/cosmos/adapters/injective/types/ocr.pb.go:2922-2958 | the computed size of ContractConfig is the number of bytes of its encoding |
| ContractConfigMessage.MarshalToSizedBuffer | pkg/cosmos/adapters/injective/types/ocr.pb.go:1865-1918 | the backward fill writes the encoding of ContractConfig right in front of the end and nothing else |
| ContractConfigMessage.Marshal | pkg/cosmos/adapters/injective/types/ocr.pb.go:1850-1858 | a buffer of the computed size is filled down to index 0 |
| ContractConfigMessage.FieldAt | pkg/cosmos/adapters/injective/types/ocr.pb.go:4249-4484 | the switch over known fields of ContractConfig, with every error |
| ContractConfigMessage.Unmarshal | pkg/cosmos/adapters/injective/types/ocr.pb.go:4249-4484 | the decoding loop terminates and is the decoding function of ContractConfig |
| ContractConfigMessage.RoundTrip | pkg/cosmos/adapters/injective/types/ocr.pb.go:4249-4484 | decoding the encoding of ContractConfig gives it back |
| ContractConfigMessage.UnknownFieldsAreTransparent | pkg/cosmos/adapters/injective/types/ocr.pb.go:4249-4484 | so it does with well-formed unknown fields, nested groups included, anywhere in between |
| ReportToSignMessage.Size | pkg/cosmos/adapters/injective/types/ocr.pb.go:3164-3189 | the computed size of ReportToSign is the number of bytes of its encoding |
| ReportToSignMessage.MarshalToSizedBuffer | pkg/cosmos/adapters/injective/types/ocr.pb.go:2411-2448 | the backward fill writes the encoding of ReportToSign right in front of the end and nothing else |
| ReportToSignMessage.Marshal | pkg/cosmos/adapters/injective/types/ocr.pb.go:2396-2404 | a buffer of the computed size is filled down to index 0 |
| ReportToSignMessage.FieldAt | pkg/cosmos/adapters/injective/types/ocr.pb.go:5928-6117 | the switch over known fields of ReportToSign, with every error |
| ReportToSignMessage.Unmarshal | pkg/cosmos/adapters/injective/types/ocr.pb.go:5928-6117 | the decoding loop terminates and is the decoding function of ReportToSign |
| ReportToSignMessage.RoundTrip | pkg/cosmos/adapters/injective/types/ocr.pb.go:5928-6117 | decoding the encoding of ReportToSign gives it back |
| ReportToSignMessage.UnknownFieldsAreTransparent | pkg/cosmos/adapters/injective/types/ocr.pb.go:5928-6117 | so it does with well-formed unknown fields, nested groups included, anywhere in between |
| ObservationsCountsMessage.Size | pkg/cosmos/adapters/injective/types/ocr.pb.go:3062-3076 | the computed size of OracleObservationsCounts is the number of bytes of its encoding |
| ObservationsCountsMessage.MarshalToSizedBuffer | pkg/cosmos/adapters/injective/types/ocr.pb.go:2171-2195 | the backward fill writes the encoding of OracleObservationsCounts right in front of the end and nothing else |
| ObservationsCountsMessage.Marshal | pkg/cosmos/adapters/injective/types/ocr.pb.go:2156-2164 | a buffer of the computed size is filled down to index 0 |
| ObservationsCountsMessage.FieldAt | pkg/cosmos/adapters/injective/types/ocr.pb.go:5255-5380 | the switch over known fields of OracleObservationsCounts, with every error |
| ObservationsCountsMessage.Unmarshal | pkg/cosmos/adapters/injective/types/ocr.pb.go:5255-5380 | the decoding loop terminates and is the decoding function of OracleObservationsCounts |
| ObservationsCountsMessage.RoundTrip | pkg/cosmos/adapters/injective/types/ocr.pb.go:5255-5380 | decoding the encoding of OracleObservationsCounts gives it back |
| ObservationsCountsMessage.UnknownFieldsAreTransparent | pkg/cosmos/adapters/injective/types/ocr.pb.go:5255-5380 | so it does with well-formed unknown fields, nested groups included, anywhere in between |
| CountMessage.Size | pkg/cosmos/adapters/injective/types/genesis.pb.go:1163-1177 | the computed size of Count is the number of bytes of its encoding |
| CountMessage.MarshalToSizedBuffer | pkg/cosmos/adapters/injective/types/genesis.pb.go:945-963 | the backward fill writes the encoding of Count right in front of the end and nothing else |
| CountMessage.FieldAt | pkg/cosmos/adapters/injective/types/genesis.pb.go:2129-2229 | the switch over known fields of Count, with every error |
| CountMessage.Unmarshal | pkg/cosmos/adapters/injective/types/genesis.pb.go:2129-2229 | the decoding loop terminates and is the decoding function of Count |
| CountMessage.RoundTrip | pkg/cosmos/adapters/injective/types/genesis.pb.go:2129-2229 | decoding the encoding of Count gives it back |
| CountMessage.UnknownFieldsAreTransparent | pkg/cosmos/adapters/injective/types/genesis.pb.go:2129-2229 | so it does with well-formed unknown fields, nested groups included, anywhere in between |
| FeedCountsMessage.Size | pkg/cosmos/adapters/injective/types/genesis.pb.go:1144-1161 | the computed size of FeedCounts is the number of bytes of its encoding |
| FeedCountsMessage.MarshalToSizedBuffer | pkg/cosmos/adapters/injective/types/genesis.pb.go:901-928 | the backward fill writes the encoding of FeedCounts right in front of the end and nothing else |
| FeedCountsMessage.Marshal | pkg/cosmos/adapters/injective/types/genesis.pb.go:886-894 | a buffer of the computed size is filled down to index 0 |
| FeedCountsMessage.FieldAt | pkg/cosmos/adapters/injective/types/genesis.pb.go:2013-2128 | the switch over known fields of FeedCounts, with every error |
| FeedCountsMessage.Unmarshal | pkg/cosmos/adapters/injective/types/genesis.pb.go:2013-2128 | the decoding loop terminates and is the decoding function of FeedCounts |
| FeedCountsMessage.RoundTrip | pkg/cosmos/adapters/injective/types/genesis.pb.go:2013-2128 | decoding the encoding of FeedCounts gives it back |
| FeedCountsMessage.UnknownFieldsAreTransparent | pkg/cosmos/adapters/injective/types/genesis.pb.go:2013-2128 | so it does with well-formed unknown fields, nested groups included, anywhere in between |
| ObservationsCountsMessage.PackAll | pkg/cosmos/adapters/injective/types/ocr.pb.go:2176-2189 | the temporary buffer of ten bytes an element suffices and holds the packed elements |
| ObservationsCountsMessage.UnpackPacked | pkg/cosmos/adapters/injective/types/ocr.pb.go:5302-5356 | packed elements read back, whatever follows |
| FeedCountsMessage.PutNested | pkg/cosmos/adapters/injective/types/genesis.pb.go:906-919 | a nested message, its length and tag, written in front |
| MessageLayouts.ContractConfigLayout | pkg/cosmos/adapters/injective/types/ocr.pb.go:1865-1918 | the encoding behind tag bytes 0x08, 0x12, 0x1A, 0x20, 0x2A, 0x30, 0x3A in this order, zero and empty fields left out, repeated ones not |
| MessageLayouts.ReportToSignLayout | pkg/cosmos/adapters/injective/types/ocr.pb.go:2411-2448 | likewise behind 0x0A, 0x10, 0x18, 0x22, 0x2A |
| MessageLayouts.ObservationsCountsLayout | pkg/cosmos/adapters/injective/types/ocr.pb.go:2171-2195 | all counts packed behind one 0x0A and one length |
| MessageLayouts.CountLayout | pkg/cosmos/adapters/injective/types/genesis.pb.go:945-963 | likewise behind 0x0A, 0x10 |
| MessageLayouts.FeedCountsLayout | pkg/cosmos/adapters/injective/types/genesis.pb.go:901-928 | the id behind 0x0A, each count nested behind 0x12 |
| MessageLayouts.ContractConfigWireTypes | pkg/cosmos/adapters/injective/types/ocr.pb.go:4275-4470 | a known field with the wrong wire type is refused, fields 1, 4, 6 being numbers and 2, 3, 5, 7 bytes |
| MessageLayouts.ReportToSignWireTypes | pkg/cosmos/adapters/injective/types/ocr.pb.go:5958-6096 | likewise, fields 2, 3 numbers and 1, 4, 5 bytes |
| MessageLayouts.ObservationsCountsWireTypes | pkg/cosmos/adapters/injective/types/ocr.pb.go:5285-5358 | likewise, field 1 a number or packed |
| MessageLayouts.CountWireTypes | pkg/cosmos/adapters/injective/types/genesis.pb.go:2159-2209 | likewise, field 1 bytes and field 2 a number |
| MessageLayouts.FeedCountsWireTypes | pkg/cosmos/adapters/injective/types/genesis.pb.go:2043-2108 | likewise, both fields bytes |
| MsgTable.Orm.InsertMsg | pkg/cosmos/txm/orm.go:37-46 | one new Unstarted row with the next id |
| MsgTable.Orm.UpdateMsgsContract | pkg/cosmos/txm/orm.go:49-56 | exactly the rows of the contract in the given state move |
| MsgTable.Orm.GetMsgsState | pkg/cosmos/txm/orm.go:59-68 | the oldest rows of the chain in one state, up to the limit; a limit below 1 is refused |
| MsgTable.Orm.UpdateMsgs | pkg/cosmos/txm/orm.go:81-103 | the rows with the ids move; Broadcasted needs a hash; a wrong count is reported after the update |
| MsgTable.OldestMembers | pkg/cosmos/txm/orm.go:59-68 | what a query returns, and that it returns everything when that fits |
| MsgTable.AllTouched | pkg/cosmos/txm/orm.go:95-101 | distinct existing ids never give a wrong count |
| TxmProtocol.ClaimMoves | pkg/cosmos/txm/txm.go:187-226 | which way a claim moves each single row |
| TxmProtocol.ClaimHolds | pkg/cosmos/txm/txm.go:187-226 | after a claim the Started rows of the chain are the batch, at most one batch of them |
| TxmProtocol.NextKeeps | pkg/cosmos/db/db.go:20-39 | every committed step keeps the invariant and moves every row along the documented graph |
| TxmRuns.ReachableGood | pkg/cosmos/txm/txm.go:185-268 | the invariant holds after every run with crashes and interleaved requests |
| TxmRuns.LivesAreOneRun | pkg/cosmos/txm/txm.go:114-132 | any number of process lives, each on the table its predecessor left, are one run from the empty table with crashes in between, and each starts on a well-formed table |
| TxmRuns.EveryStepIsLegal | pkg/cosmos/db/db.go:20-39 | in every run each step moves rows only along the documented graph |
| TxmRuns.BroadcastHasHash | pkg/cosmos/txm/orm.go:82-89 | a Broadcasted or Confirmed row has a stored hash |
| TxmRuns.StartedFitsBatch | pkg/cosmos/txm/txm.go:189-194 | there are never more Started rows than fit into one batch |
| TxmRuns.BroadcastOnce | pkg/cosmos/txm/txm.go:342-365 | a row is committed as Broadcasted at most once in a run |
| TxmRuns.TerminalIsForever | pkg/cosmos/db/db.go:29-39 | Confirmed and Errored rows never change again |
| TxmRuns.EnqueueLeavesOneQueued | pkg/cosmos/txm/txm.go:455-465 | if no other request for the contract inserts in between, its message is the only one waiting |
| TxmRuns.EnqueueLeavesOneQueuedIff | pkg/cosmos/txm/txm.go:455-465 | after both writes of a request its message is the only one waiting for the contract if and only if none was waiting before the second; it is if every insert in between was cancelled again, and, unless messages were claimed in between, only then |
| TxmRuns.OverlappingRequestsQueueTwo | pkg/cosmos/txm/txm.go:455-465 | two overlapping requests leave two messages waiting |
| ObservationsCountsMessage.PackedMayRunPastItsLength | pkg/cosmos/adapters/injective/types/ocr.pb.go:5321-5356 | a packed field whose last element runs past its length is accepted |
| ObservationsCountsMessage.PackedStopsAtItsLengthIff | pkg/cosmos/adapters/injective/types/ocr.pb.go:5302-5356 | a packed field that decodes is read exactly up to its declared length if and only if it is empty or its last byte has no continuation bit; it is never read short |
| TxmBatches.GroupBy | pkg/cosmos/txm/txm.go:232-248 | rows are grouped by key in order, rows without a key skipped |
| TxmBatches.SplitIsDistinct | pkg/cosmos/txm/txm.go:285-295 | the two parts of a simulated batch are distinct rows of it |
| TxmBatches.MsgValidator.constructor | pkg/cosmos/txm/txm.go:186 | starts empty |
| TxmBatches.MsgValidator.AddAll | pkg/cosmos/txm/txm.go:202-216 | the loops over read rows |
| TxmBatches.MsgValidator.SortValid | pkg/cosmos/txm/txm.go:172-183 | valid rows ordered by age, then id, none lost |
| TxmSender.Txm.constructor | pkg/cosmos/txm/txm.go:114-117 | a process starts on whatever table is there |
| TxmSender.Txm.Enqueue | pkg/cosmos/txm/txm.go:445-470 | success means both writes are committed, the cancel and the insert, with other requests in between; it fails only when a write or the surrounding transaction fails, which may be after both writes have persisted |
| TxmSender.Txm.SettleMsgs | pkg/cosmos/txm/txm.go:425-441 | the named rows end Confirmed or Errored, or the write failed and nothing changed |
| TxmSender.Txm.ConfirmTx | pkg/cosmos/txm/txm.go:394-442 | it gives up exactly when the context ends before the transaction is seen; otherwise, if the write succeeds, the rows are Confirmed exactly when it was seen, Errored if no poll saw it |
| TxmSender.Txm.ConfirmRound | pkg/cosmos/txm/txm.go:83-110 | one round stops, uses up a failing access, or settles a row; it stops with rows left only for a failed access, no connection, a limit below 1 or a caller that gives up |
| TxmSender.Txm.ConfirmGroups | pkg/cosmos/txm/txm.go:96-109 | every transaction of the round is confirmed in turn; it stops early only for a failed access or a caller that gives up |
| TxmSender.Txm.ConfirmAnyUnconfirmed | pkg/cosmos/txm/txm.go:79-112 | it terminates when finitely many accesses fail; it ends with no Broadcasted row of the chain left unless an access failed, there was no connection, the limit is below 1 or the caller gave up |
| TxmSender.Txm.WriteClaim | pkg/cosmos/txm/txm.go:187-226 | the writes of the claiming transaction |
| TxmSender.Txm.ClaimBatch | pkg/cosmos/txm/txm.go:187-230 | the claim commits as one step or changes nothing |
| TxmSender.Txm.FailMsgs | pkg/cosmos/txm/txm.go:295-300 | failed messages become Errored |
| TxmSender.Txm.BroadcastMsgs | pkg/cosmos/txm/txm.go:342-370 | marking and broadcasting commit together or not at all, and they do exactly when the broadcast and every access go through |
| TxmSender.Txm.SendMsgBatchFromAddress | pkg/cosmos/txm/txm.go:270-379 | it succeeds exactly when the client serves the messages and every access goes through; then those failing the batch simulation were errored, the passing ones broadcast under the hash and settled by the polls, and all are in a terminal state; after a total failure the failing ones were errored all the same |
| TxmSender.Txm.BroadcastAndConfirm | pkg/cosmos/txm/txm.go:307-379 | it succeeds exactly when signature, broadcast, polls and accesses go through; then the messages were marked with the hash and settled by the outcome of the polls |
| TxmSender.Txm.SendGroup | pkg/cosmos/txm/txm.go:254-262 | one group is sent with its client, and what came of it is recorded beside the others |
| TxmSender.Txm.ClaimInOrder | pkg/cosmos/txm/txm.go:185-232 | the rows in time of what the claim found waiting or left over, ordered by age and id, or no claim after a failed access |
| TxmSender.Txm.SendGroups | pkg/cosmos/txm/txm.go:254-268 | group after group is sent until the caller gives up, whatever comes of each |
| TxmSender.Txm.SendMsgBatch | pkg/cosmos/txm/txm.go:185-268 | one sending round claims a batch unless the database fails; if there is a price, every sender of the batch is handed exactly its rows, oldest first, unless the caller gave up after a successful send; each group is sent if its client serves it, and otherwise its error is reported |
| TxmSender.Txm.RunProcess | pkg/cosmos/txm/txm.go:114-132 | the life of a process: recovery first, then round after round, every one as promised of a sending round and with what it sent still settled at the end |
| TxmSender.ClaimWrites | pkg/cosmos/txm/txm.go:187-226 | both updates of a claim touch exactly the rows they name and make its new table |
| BatchSimulation.BatchSimulateUnsigned | pkg/cosmos/client/client.go:339-370 | the loop returns the recursive split and makes the counted calls |
| BatchSimulation.FewCalls | pkg/cosmos/client/client.go:339-370 | at most as many simulations as messages |
| BatchSimulation.SplitIsPartition | pkg/cosmos/client/client.go:339-370 | both results are subsequences of the batch in its order, each message in exactly one |
| BatchSimulation.SplitCoversBatch | pkg/cosmos/client/client.go:339-370 | no message is lost, added or listed twice |
| BatchSimulation.IndependentVerdicts | pkg/cosmos/client/client.go:331-338 | when verdicts do not depend on earlier messages, the split is into passing and failing ones |
| CacheProtocol.NextExplained | pkg/cosmos/adapters/cosmwasm/contract_cache.go:98-148 | every step keeps the cache explained by answers of the reader |
| CacheProtocol.ServedConfigIsFromReader | pkg/cosmos/adapters/cosmwasm/contract_cache.go:169-180 | for a block other than 0 a configuration served without error was given by the reader for that block, the block was reported as the latest no later than the stamp, and one of the two happened within the TTL |
| CacheProtocol.FreshIff | pkg/cosmos/adapters/cosmwasm/contract_cache.go:98-128 | at every moment at which the cache serves its configuration, the report that led to it is at most the TTL old, if and only if the stamp is the time of that report |
| CacheProtocol.FreshIsReported | pkg/cosmos/adapters/cosmwasm/contract_cache.go:98-128 | in that case the block was reported as the latest within the TTL |
| CacheProtocol.StaleConfigIsServed | pkg/cosmos/adapters/cosmwasm/contract_cache.go:112-124 | after a fetch slower than the TTL a configuration is served whose block was not reported as the latest within the TTL |
| CacheProtocol.ServedForBlockZero | pkg/cosmos/adapters/cosmwasm/contract_cache.go:169-180 | the same for block 0, where the configuration may also be the zero value |
| CacheProtocol.ZeroConfigIsServed | pkg/cosmos/adapters/cosmwasm/contract_cache.go:98-116 | an unconfigured contract makes the cache serve the zero value that no reader gave |
| CacheProtocol.ZeroConfigServedIff | pkg/cosmos/adapters/cosmwasm/contract_cache.go:98-124 | what is served is the zero value for block 0 exactly until a fetched configuration is stored, and afterwards only if that very value was given and stored last |
| CacheProtocol.ServedBlockIsFromReader | pkg/cosmos/adapters/cosmwasm/contract_cache.go:159-167 | the block served was reported as the latest no later than the stamp, and its digest is that of a configuration of the block given or reported within the TTL |
| CacheProtocol.ServedDetailsAreOneAnswer | pkg/cosmos/adapters/cosmwasm/contract_cache.go:182-200 | the five values served are one single answer, within the TTL |
| ContractCache.Cached.constructor | pkg/cosmos/adapters/cosmwasm/contract_cache.go:41-49 | the empty cache |
| ContractCache.Cached.FetchConfig | pkg/cosmos/adapters/cosmwasm/contract_cache.go:117-128 | a fetched configuration is stored with block and time together; without one the cache stays as it is |
| ContractCache.Cached.UpdateConfig | pkg/cosmos/adapters/cosmwasm/contract_cache.go:98-129 | it succeeds exactly if the latest block is answered and is either the one held or its configuration is fetched; what the cache holds afterwards, stamped with a time of this call; failure leaves it as it was |
| ContractCache.Cached.UpdateTransmission | pkg/cosmos/adapters/cosmwasm/contract_cache.go:131-148 | it succeeds exactly if the reader answers; the five values of the answer are held, stamped with a time of this call |
| ContractCache.Cached.Keep | pkg/cosmos/adapters/cosmwasm/contract_cache.go:136-143 | the five values of one answer are stored together with its time |
| ContractCache.Cached.PollOnce | pkg/cosmos/adapters/cosmwasm/contract_cache.go:81-94 | one round: the configuration first, then, unless the poller is stopped, the transmission |
| ContractCache.Cached.Poll | pkg/cosmos/adapters/cosmwasm/contract_cache.go:74-96 | both updates in every round until the poller is stopped: what the cache holds is what the answers make of it round by round, each answered round has stamped the cache since it began, and all of it is a run of the cache machine |
| ContractCache.LastDetailsAreHeld | pkg/cosmos/adapters/cosmwasm/contract_cache.go:74-148 | after polling, the transmission of the last answer is held, whatever polls failed before and after |
| ContractCache.LastConfigIsHeld | pkg/cosmos/adapters/cosmwasm/contract_cache.go:74-129 | and the configuration of the last round that answered one, unless block and digest reported there were those already held |
| ContractCache.Cached.LatestConfigDetails | pkg/cosmos/adapters/cosmwasm/contract_cache.go:159-167 | fields of one moment, their age checked later |
| ContractCache.Cached.LatestConfig | pkg/cosmos/adapters/cosmwasm/contract_cache.go:169-180 | the same, and only for the block asked for |
| ContractCache.Cached.LatestTransmissionDetails | pkg/cosmos/adapters/cosmwasm/contract_cache.go:182-200 | the same for the transmission |
| ProxySpec.ParseUndoesNumbering | contracts/proxy-ocr2/src/lib.rs:304-318 | parsing undoes the numbering |
| ProxySpec.UpperBitsAreIgnored | contracts/proxy-ocr2/src/lib.rs:232-241 | a round query is answered as if the upper 16 bits of the id were zero |
| ProxySpec.AnswersWithTheIdIff | contracts/proxy-ocr2/src/lib.rs:232-241 | an answered round carries the id asked for if and only if that id is below 2^48 |
| ProxyWitness.LargeIdIsAnswered | contracts/proxy-ocr2/src/lib.rs:232-241 | a feed after its first round behind a fresh proxy answers round 1 under its id and under that id plus 2^48 |
| ProxySpec.StepProxyKeeps | contracts/proxy-ocr2/src/lib.rs:151-206 | every message keeps the phases 1 to current, write-once and in step with the current phase |
| ProxySpec.LatestIsFoundById | contracts/proxy-ocr2/src/lib.rs:232-249 | round data of the latest id is the latest round data |
| ProxyGuards.StepProxyIff | contracts/proxy-ocr2/src/lib.rs:151-206 | a message goes through exactly for the owner, a confirmation only of the address proposed and below the last phase; and what it changes |
| ProxyGuards.PhasesAreAgreed | contracts/proxy-ocr2/src/lib.rs:159-200 | in every run phase 1 is the first contract, and every later phase was proposed and then confirmed by the owner with no other proposal in between |
| ProxyGuards.OnlyOwnerMovesTheProxy | contracts/proxy-ocr2/src/lib.rs:159-200 | without messages of the owner the proxy stays as it is over any run |
| ProxyGuards.RoundDataIff | contracts/proxy-ocr2/src/lib.rs:232-241 | for every id, exactly when round data is answered, and the record it names: the phase in bits 32 to 47, the round in the lower 32 |
| ProxyGuards.LatestRoundIs | contracts/proxy-ocr2/src/lib.rs:242-249 | the latest round data is the latest transmission of the current aggregator, under its id with the phase in front |
| ProxyContract.ProxyStore.constructor | contracts/proxy-ocr2/src/lib.rs:126-148 | phase 1 is the given address |
| ProxyContract.ProxyStore.ProposeContract | contracts/proxy-ocr2/src/lib.rs:159-170 | storage is that of the step, failures change nothing |
| ProxyContract.ProxyStore.ConfirmContract | contracts/proxy-ocr2/src/lib.rs:171-200 | only the proposed address is confirmed, as the next phase; the last id aborts |
| ProxyRuns.ReachableGood | contracts/proxy-ocr2/src/lib.rs:126-200 | over every run with live aggregators the phases are 1 to current |
| ProxyRuns.AnswersAreStable | contracts/proxy-ocr2/src/lib.rs:232-241 | a round id answered once is answered the same ever after |
| ProxyRuns.LatestNeverDecreases | contracts/proxy-ocr2/src/lib.rs:242-249 | latest round ids never decrease, also across phases |
| ProxyRuns.LatestAnswersAlongIff | contracts/proxy-ocr2/src/lib.rs:242-249 | in any run the latest round is answered if and only if an aggregator lives at the current address and has had a round |
| ProxyRuns.EmptyPhaseStopsAnswers | contracts/proxy-ocr2/src/lib.rs:242-249 | after confirming a contract without rounds the latest round is not answered |
| ProxyRuns.LatestRoundIsItsRoundData | contracts/proxy-ocr2/src/lib.rs:232-249 | at any point of a run, asking for the latest id gives the latest round |

## Left out

- PreimageUnambiguous: for addresses of one length, as the chain's address format has them; `Digest.PreimageEqualIff` is the exact condition without it, and `Digest.VaryingAddressLengthCollides` shows that some such condition is needed.
- PreimageEqualIff: for equally many transmitter bytes; without this, and without lengths in the preimage, transmitter bytes could also be read as the fields behind them.
- DigestPinsProposal: the hash is only asked to separate the two preimages compared; nothing about blake2 itself is modelled.
- NoReplay: the hash is only asked not to collide on the preimages of the run, after two bytes are masked.
- TransmissionHasHonestSigner: ed25519 is a predicate on hash, signatures and keys; unforgeability is not part of this model.
- WithdrawPaymentKeepsMargin: like the other solvency results, for steps whose transfers do not go to the contract itself; such a transfer would not lower its balance.
- RoundTrip: encodings of 2^63 bytes and more do not fit the decoder's index type and are excluded.
- ConfirmAnyUnconfirmed: termination is for finitely many failing accesses; with a database that fails for ever the loop does not end.
- SendMsgBatchFromAddress: when the client does not serve the messages or an access fails, it is only promised that the send is reported as failed, that what was committed are steps of the machine, and that failing messages are errored after a total failure.
- ServedConfigIsFromReader: arrival of an answer and taking its time are one step, as nothing of interest happens between them.
- Base64, keccak, blake2, ed25519, bech32 and JSON are parameters or left out; base64 is an inverse pair (section 4 of RFC 4648).
- Address validation is left out; addresses are arbitrary byte strings.
- The CW20 token contract is a balance map; whether a token refuses a transfer for reasons of its own is part of the surroundings of a step.
- The billing access controller is its answer; setting the access controllers, the requester controller and `request_new_round` are left out.
- The validator, its submessage and its reply are left out; they do not change the state modelled here.
- Ownership transfer of the contracts is left out; the owner is a plain field.
- Queries for the proposed contract of the proxy, and getters of single storage items, are left out.
- The CW20 receive hook, migration, decimals, description and version queries are left out.
- Attributes of the transmission, billing and payment events are left out; those of proposals and of the configuration event are modelled.
- The sorting and binary search of the language libraries are modelled by an insertion sort and a search of the same contract, not by their own algorithms.
- The distinction between a nil and an empty byte slice in decoded messages is left out, as are nil elements of a repeated field.
- Injective messages with decimal, integer and time fields are left out; their codecs are not part of this model.
- SQL text, connections and isolation levels are left out; a transaction takes effect at once when it commits. Under read-committed isolation it need not: a cancel that commits after the claim has read its rows and before the claim updates them by id would be overwritten by the claim, taking a row from Errored back to Started.
- State checks made by the database itself are left out; for transactions that take effect at once the graph is kept without them, and for others they are what keeps it.
- Enqueue: a single write either fails or persists; only the end of the surrounding transaction is modelled as failing after the writes have persisted.
- The limit on messages per batch is one constant over all lives of the process; a restart with another limit is left out.
- Gas estimation, block heights, key stores and the signed transaction are one answer of the client: it works or it does not.
- The wake-up of the sender on a new message is left out, because it receives from the channel where it would have to send; batches start on the ticker.
- The out-of-range failure index of a simulator, which panics, is an error of the batch.
- Logging, jitter, tickers, metrics, monitoring, configuration defaults and tests are left out.
