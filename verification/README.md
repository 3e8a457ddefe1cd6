# STSH canisters: verified models of the crash- and interleaving-sensitive cores

This project models the state machines of the STSH canisters whose correctness depends on how
messages, crashes and upgrades interleave, together with the indexes and analyses that have to
agree with a simple specification, and proves what they promise.

| files | subject |
|---|---|
| `PayoutTypes`, `PayoutSegments`, `PayoutPlane` | records, control cell and memo of the private-spend payout executor; each no-await segment as a state function, and the class that performs it in place |
| `TokenLedger` | the deduplicating `icrc1_transfer` the executor talks to |
| `PayoutWorld`, `PayoutInvariant`, `PayoutPreserved`, `PayoutSteps`, `PayoutResume`, `PayoutRuns`, `PayoutTheorems`, `PayoutDoubt`, `PayoutExpiry`, `PayoutDriver` | the executor composed with outstanding futures, transfers in flight, ledgers, operators, traps and upgrades; its inductive invariant; the theorems about all runs; the executor object driven through them |
| `PayoutLaws`, `PayoutStanding`, `PayoutProgress` | what each event of a run does to the stored fields, without the functions the executor is specified by; that an undisturbed payout pays |
| `MerkleSpec`, `MerkleCache`, `MerkleTree` | the full zero-padded tree, the sparse node cache and root ring, and the canister class |
| `BraceScanner`, `BodyScan`, `CallGraph`, `GateSearch`, `GateReport`, `GateSource`, `GateMultiplier` | the evidence gate: loop-block scanner and call-site scans over bodies, reachability with taint and re-queuing, cycle check and report over the graph, the whole gate from text to report, and what a point read leaves open |
| `Settlement` | start settlement: evidence, classifier, write-once record, plane |
| `SnapshotCodec`, `Monitor` | the solvency snapshot's certified bytes and the overlapping refreshes |
| `Nullifiers`, `FieldUtils`, `ByteOrder`, `ByteStrings` | the nullifier registry, canonical field encodings, byte order, integer codecs |
| `SlidingWindow`, `FeePolicy` | rolling-window charges and fee arithmetic |
| `Wrappers`, `Arithmetic` | Option, Result, saturating arithmetic; products and quotients |

How to read it: code that updates state in place is a class whose methods are proved equal to
functions on an abstract state (`PayoutSegments`, `MerkleCache`, `Monitor.State`, ...); what the
system promises is proved about those functions, over whole runs where it is a protocol. A run is
a sequence of states linked by enabled events; history variables (tokens issued, transfers sent,
first frozen request per ordinal, confirmed settlements, accruals, flushes) record the past and influence
nothing.

Assumptions, all visible in the code:

- `Env.SoundMac`: the keyed MAC has 32-byte digests and no collision between two memo messages of
  one pool on one ledger. `PayoutTypes.SoundMacExists` shows it satisfiable, and
  `PayoutTypes.MemoMessageInjective` that the messages themselves never collide.
- Ledger clocks do not run backwards, and the pool's other transfers (withdrawals, treasury
  disbursements) carry memos of another length than the 32 bytes of a payout memo.
- The pair hash of the tree, the digest of the settlement identities and the character classes of
  the scanners are parameters; the theorems hold for every choice of them.

Where the code and its documentation disagree the code is followed: the monitor's header comment
still describes an 89-byte leaf, `canonical_bytes` writes 131 bytes; the sliding window's wait is
documented as exact, and `SlidingWindow.WaitIsExact` gives the exact condition under which it is
(`SlidingWindow.SaturatedWaitIsShort` is an input for which it is not). The gate's comment promises that nothing
on the call path of a point read multiplies it; a recursive caller does, as
`GateMultiplier.RecursiveCallerEscapes` shows, and `GateMultiplier.PointReadUnmultiplied` gives the
exact condition.

## Model

| member | source | states |
|---|---|---|
| `PayoutTheorems.ExactlyOncePayout` | canisters/shielded-pool/src/payout_retry.rs:453-591 | In every reachable world, on every ledger, the debits under a spend's memo total 0 or exactly the amount pinned with its frozen request, which is the stored record's own public amount, and only on the ledger that request names; once a ledger reply has finalized the spend the total is exactly that amount, in the recorded block |
| `PayoutTheorems.ReturnedBlockPaid` | canisters/shielded-pool/src/payout_retry.rs:556-590 | Whenever a payout returns a block to its caller the record is final and names that block, which on the pinned ledger credits the record's own destination with the public amount less the fee charged |
| `PayoutTheorems.FrozenIdentity` | canisters/shielded-pool/src/payout_retry.rs:491-557 | Once a record holds a frozen request, every later record of that ordinal holds the same one and every transfer ever sent for it, earlier or later, carries those arguments |
| `PayoutTheorems.PinsForever` | canisters/shielded-pool/src/payout_retry.rs:509-535 | The first frozen request of an ordinal is never replaced, whatever the rest of the run does |
| `PayoutTheorems.AlwaysValid` | canisters/shielded-pool/src/payout_retry.rs:270-307 | `validate_retry` holds of every payout record in every reachable world, across boots |
| `PayoutTheorems.RecordsOnlyAdvance` | canisters/shielded-pool/src/payout_retry.rs:309-430 | Over any stretch of a run in which a record stays, destination, amount, split, ordinal and a frozen request are unchanged, generation, boot, doubt and dispatch only grow, and a finalized record is untouched |
| `PayoutTheorems.StepAdvances` | canisters/shielded-pool/src/payout_retry.rs:309-430 | One step of anything moves a record only forward: destination, amount, split and ordinal are fixed, generation and boot never fall, doubt and dispatch are never withdrawn, a frozen request is never replaced and a finalized record never touched |
| `PayoutDoubt.AmbiguityIsSticky` | canisters/shielded-pool/src/payout_retry.rs:309-405 | While some transfer sent for a spend is neither definitely refused to its owner nor cleared by a reconciliation, claiming fails, and a guardless submitting record normalizes to unknown |
| `PayoutDoubt.DoubtIsLiftedOnlyBy` | canisters/shielded-pool/src/payout_retry.rs:567-589 | A transfer becomes definitely refused only by its own still owning future taking in such a reply, and cleared only by an operator's successful revert to pending |
| `PayoutDoubt.DoubtHasACause` | canisters/shielded-pool/src/payout_retry.rs:309-405 | Doubt arises only from an unanswered or ambiguously refused transfer of the spend's own executor, or because that executor vanished after its dispatch boundary |
| `PayoutDoubt.DefiniteRefusalReleases` | canisters/shielded-pool/src/payout_retry.rs:572-583 | A definite refusal of a spend without earlier doubt returns it to pending at once with its frozen request kept, claimable again exactly while its generation is not exhausted |
| `PayoutTheorems.TokensNeverRepeat` | canisters/shielded-pool/src/payout_retry.rs:222-253 | No attempt token is issued twice in any run, across upgrades and re-admissions; ordinal and generation alone already differ |
| `PayoutTheorems.SingleOwner` | canisters/shielded-pool/src/payout_retry.rs:255-269 | At most one outstanding future per spend passes the ownership check |
| `PayoutTheorems.ExecutorMapIsExact` | canisters/shielded-pool/src/payout_retry.rs:358-389 | At message boundaries there are at most 64 executor slots; each slot's token matches a submitting record and is held by exactly one outstanding future |
| `PayoutTheorems.StaleDropReleasesNothing` | canisters/shielded-pool/src/payout_retry.rs:229-241 | Dropping a guard never removes another token's slot, and a guard that owns nothing changes nothing |
| `PayoutTheorems.FeeAccruedOnce` | canisters/shielded-pool/src/payout_retry.rs:406-430 | Each incarnation of a spend accrues its fee split at most once, and only when final |
| `PayoutTheorems.FeesFlushedOnce` | canisters/shielded-pool/src/lib.rs:15038-15059 | Across any flushes every accrual belongs to exactly one window, each published row is the saturating sum of its window's accruals, and the cell holds exactly the open window's sum |
| `PayoutExpiry.ExpiredNeverPays` | canisters/shielded-pool/src/payout_retry.rs:567-590 | Once a frozen request is unexecuted and older than its ledger's window, no later world holds a debit under the spend's memo there, and no reply ever settles it |
| `PayoutExpiry.OnlyAnOperatorFinalizes` | canisters/shielded-pool/src/payout_retry.rs:406-430 | From then on the step that finalizes the spend, if any, is an operator's assertion of a block |
| `PayoutExpiry.FinalizedBy` | canisters/shielded-pool/src/payout_retry.rs:406-430 | A payout record is finalized by its own owner's confirmed transfer or by an operator's assertion, and by nothing else |
| `PayoutDriver.PerformRun` | canisters/shielded-pool/src/payout_retry.rs:453-591 | The executor object carries out any run of the world by its own methods; afterwards its records validate, its at most 64 slots each own a submitting record, and its accrual cell is the open window's sum |
| `PayoutDriver.Perform` | canisters/shielded-pool/src/payout_retry.rs:453-591 | Carrying out one event with the object's methods gives exactly the world's next pool state |
| `PayoutDriver.Wakeup` | canisters/shielded-pool/src/payout_retry.rs:453-591 | Resuming a suspended future runs its segment, and drops its guard exactly if the future ends |
| `PayoutDriver.AdmitSpend` | canisters/shielded-pool/src/lib.rs:6786-6833 | Admission stores the record with the ordinal reserved for it, and nothing without a memo key |
| `PayoutRuns.StepKeepsInv` | canisters/shielded-pool/src/payout_retry.rs:453-591 | Every event, including traps, lost replies, upgrades and mistaken reconciliations, keeps the whole payout invariant |
| `PayoutRuns.ReachableInv` | canisters/shielded-pool/src/payout_retry.rs:453-591 | The payout invariant holds in every world of every run |
| `PayoutRuns.StaleChangesNothing` | canisters/shielded-pool/src/payout_retry.rs:255-269 | A future that has lost ownership ends without touching any record, whatever answer wakes it |
| `PayoutInvariant.InitHasInv` | canisters/shielded-pool/src/payout_retry.rs:67-90 | A fresh control cell over records without retry data, new or adopted from the predecessor version, satisfies the invariant |
| `PayoutLaws.FeeReplyFreezes` | canisters/shielded-pool/src/payout_retry.rs:491-557 | In every run, a fee below the amount that wakes the holder of the spend's slot freezes, pins and sends exactly one request: to the ledger that reported it, with that fee, for the amount less that fee, to the record's destination and subaccount, under the spend's memo, stamped with the reply's time; stated on stored fields alone, like the other members of this module |
| `PayoutLaws.RefusedPreflightSendsNothing` | canisters/shielded-pool/src/payout_retry.rs:471-505 | No balance, too little of it, no fee or a fee that eats the amount: nothing is sent, the slot is free, the record keeps its retry data and is pending, or unknown if in doubt; the caller is told the amounts |
| `PayoutLaws.TransfersHaveACause` | canisters/shielded-pool/src/payout_retry.rs:453-557 | Transfers leave one at a time and only from the slot's holder: on a fee below the amount, on a covering balance for a frozen request, or on a start after an earlier dispatch |
| `PayoutLaws.StartAsksBalance` | canisters/shielded-pool/src/payout_retry.rs:456-470 | Before any dispatch the balance of the right ledger is asked for, and nothing else happens |
| `PayoutLaws.StartResends` | canisters/shielded-pool/src/payout_retry.rs:456-470 | After a dispatch the frozen request leaves again unchanged, without preflight |
| `PayoutLaws.EnoughBalanceAsksFee` | canisters/shielded-pool/src/payout_retry.rs:469-493 | A covering balance for an unfrozen spend leads to the fee query on the same ledger |
| `PayoutLaws.EnoughBalanceResends` | canisters/shielded-pool/src/payout_retry.rs:469-557 | A covering balance for a frozen spend sends exactly the frozen request |
| `PayoutLaws.ConfirmationFinalizes` | canisters/shielded-pool/src/payout_retry.rs:556-571 | An accepted or duplicate answer makes the record final with that block, frees the slot, settles the ordinal and adds each share of the split to its own reserve, in one step |
| `PayoutLaws.ConfirmationIsReturned` | canisters/shielded-pool/src/payout_retry.rs:556-571 | and the caller gets that block |
| `PayoutLaws.OpenOutcomeIsDoubt` | canisters/shielded-pool/src/payout_retry.rs:572-590 | A lost reply, or one of the three refusals that leave the outcome open, puts the spend in doubt and in unknown, and frees the slot |
| `PayoutLaws.RefusalIsMarked` | canisters/shielded-pool/src/payout_retry.rs:572-583 | Any other refusal is marked on its transfer; the record keeps its retry data and is pending unless already in doubt |
| `PayoutLaws.NonHolderIsIdle` | canisters/shielded-pool/src/payout_retry.rs:255-269 | A future whose token is not in the slot changes nothing but ending itself |
| `PayoutStanding.ClaimsExactly` | canisters/shielded-pool/src/payout_retry.rs:358-389 | A claim succeeds exactly on a payable record with retry data, a generation left, and one of 64 slots free; it writes token, slot and record together, and otherwise only lets the record come to rest |
| `PayoutStanding.ClaimRefusedFor` | canisters/shielded-pool/src/payout_retry.rs:358-389 | Which error a refused claim gives |
| `PayoutStanding.NormalizationRests` | canisters/shielded-pool/src/payout_retry.rs:309-357 | A submitting record without an executor becomes pending if nothing was dispatched or in doubt and unknown otherwise; every other record is left alone |
| `PayoutStanding.ReconcilesExactly` | canisters/shielded-pool/src/lib.rs:14426-14492 | When an operator's assertion and an operator's revert succeed, and all they change: the asserted block and the accrual, or the pending status and the cleared transfers |
| `PayoutStanding.ReconcileAnswers` | canisters/shielded-pool/src/lib.rs:14426-14492 | What the operator is told, answer by answer |
| `PayoutStanding.AdmitsExactly` | canisters/shielded-pool/src/lib.rs:6786-6833 | Admission stores exactly the admitted terms and split under the next ordinal, and leaves no trace without key or ordinals |
| `PayoutStanding.ProvisionsOnce` | canisters/shielded-pool/src/payout_retry.rs:108-132 | The key is written exactly by a 32-byte beacon arriving in its own boot while there is none |
| `PayoutStanding.BootEmptiesSlots` | canisters/shielded-pool/src/payout_retry.rs:80-90 | A boot advances the boot number by one and empties the executor map, and traps exactly when it is exhausted |
| `PayoutStanding.FlushTakesAll` | canisters/shielded-pool/src/lib.rs:15055-15059 | A flush publishes the window's accrual and leaves zero |
| `PayoutStanding.WindowsHoldSums` | canisters/shielded-pool/src/lib.rs:15035-15059 | In every run each published row and the open cell hold, per reserve, the plain sum of their own window's shares of that reserve, cut off at 128 bits |
| `PayoutStanding.AccrualIsTheSum` | canisters/shielded-pool/src/lib.rs:15035-15044 | Saturating accrual, reserve by reserve, is the sum cut off at 128 bits |
| `PayoutStanding.StoredRecordsFit` | canisters/shielded-pool/src/payout_retry.rs:270-307 | Every payout record of every reachable world satisfies the validation written out field by field |
| `PayoutStanding.ValidExactly` | canisters/shielded-pool/src/payout_retry.rs:270-307 | `validate_retry` accepts exactly the records that satisfy it |
| `PayoutStanding.TerminatesExactly` | canisters/shielded-pool/src/payout_retry.rs:406-430 | The terminal transition on any stored data, errors and failed records included |
| `PayoutStanding.MalformedIsLeftAlone` | canisters/shielded-pool/src/payout_retry.rs:309-389 | A record that fails validation, or submits without ever having been claimed, is never normalized, claimed or reconciled |
| `PayoutStanding.DisownedIsTold` | canisters/shielded-pool/src/payout_retry.rs:255-269 | Ownership is agreement of record, token and slot; without it every segment changes nothing and says why |
| `PayoutProgress.UndisturbedPayoutPays` | canisters/shielded-pool/src/payout_retry.rs:453-571 | From any reachable world, a claimable untried spend that is claimed, answered with enough balance and a fee below its amount, and handled by a ledger that still charges that fee and can move the money, ends final with exactly one new block: its amount less the fee to its destination |
| `PayoutProgress.PayoutTransferExactly` | canisters/token/src/lib.rs:1687-1812 | A payout's transfer is executed exactly when the ledger's log does not hold it and the ledger charges the frozen fee, takes the stamp for current and can move the money; then its answer is the new block |
| `PayoutPlane.Executor.constructor` | canisters/shielded-pool/src/payout_retry.rs:67-73 | Initialization over the stored records: boot 1, ordinal 0, no key, no executors |
| `PayoutPlane.Executor.ReadControl` | canisters/shielded-pool/src/payout_retry.rs:57-59 | Reading the cell yields the abstract control value, always in range |
| `PayoutPlane.Executor.WriteControl` | canisters/shielded-pool/src/payout_retry.rs:60-66 | Writing replaces exactly the control value and leaves a cell that decodes |
| `PayoutPlane.Executor.PayoutControlUpgrade` | canisters/shielded-pool/src/payout_retry.rs:80-90 | Boot advances by one and all executor slots vanish; the exhausted boot number traps with nothing changed |
| `PayoutPlane.Executor.FinishProvisioning` | canisters/shielded-pool/src/payout_retry.rs:108-132 | After the random beacon answers, the key is written at most once and only by a call of the same boot |
| `PayoutPlane.Executor.ReservePayoutSequence` | canisters/shielded-pool/src/payout_retry.rs:192-210 | Refines ordinal reservation: without a key nothing moves, otherwise the next ordinal is consumed |
| `PayoutPlane.Executor.NormalizePayout` | canisters/shielded-pool/src/payout_retry.rs:309-357 | Refines normalization: live executors and invalid data are left alone, guardless submitting records become pending or unknown |
| `PayoutPlane.Executor.ClaimPayout` | canisters/shielded-pool/src/payout_retry.rs:358-389 | Refines claiming: error order, generation bump, slot and record written together |
| `PayoutPlane.Executor.ReleaseGuard` | canisters/shielded-pool/src/payout_retry.rs:229-241 | Refines guard drop: only the slot holding this very token is released |
| `PayoutPlane.Executor.CheckOwned` | canisters/shielded-pool/src/payout_retry.rs:255-269 | Succeeds exactly when the record is submitting under this token and the slot holds it |
| `PayoutPlane.Executor.FailAttempt` | canisters/shielded-pool/src/payout_retry.rs:390-405 | Refines a failed attempt: doubt accumulates and decides between unknown and pending |
| `PayoutPlane.Executor.TerminalPayout` | canisters/shielded-pool/src/payout_retry.rs:406-430 | Refines the terminal transition together with its fee accrual; finalized records are left alone |
| `PayoutPlane.Executor.DrainFeeAccrual` | canisters/shielded-pool/src/lib.rs:15055-15059 | The flush takes out exactly what the window accrued and leaves zero |
| `PayoutPlane.Executor.RunBegin` | canisters/shielded-pool/src/payout_retry.rs:456-492 | Refines the first segment: revalidation, choice of ledger, balance check only before any dispatch |
| `PayoutPlane.Executor.RunAfterBalance` | canisters/shielded-pool/src/payout_retry.rs:469-492 | Refines the segment after the balance reply, ownership re-checked first |
| `PayoutPlane.Executor.RunAfterFee` | canisters/shielded-pool/src/payout_retry.rs:491-557 | Refines the segment that freezes the complete request and dispatches it without a further await; what it freezes is `PayoutLaws.FeeReplyFreezes` |
| `PayoutPlane.Executor.RunDispatch` | canisters/shielded-pool/src/payout_retry.rs:543-557 | Refines the dispatch boundary: the record says may-have-dispatched before the call leaves |
| `PayoutPlane.Executor.RunAfterTransfer` | canisters/shielded-pool/src/payout_retry.rs:556-590 | Refines the segment after the ledger's answer: confirmation, definite refusal, ambiguous refusal, lost transport |
| `PayoutPlane.Executor.ReconcilePayout` | canisters/shielded-pool/src/lib.rs:14426-14492 | Refines operator reconciliation: executed asserts a block, not-executed reverts to pending with the retry data untouched |
| `PayoutTypes.ControlRoundTrip` | canisters/shielded-pool/src/payout_retry.rs:16-43 | The 65-byte control cell reads back every counter and the key |
| `PayoutTypes.ControlCanonical` | canisters/shielded-pool/src/payout_retry.rs:25-42 | Whatever decodes is in range and is the only encoding of its value |
| `PayoutTypes.CellLayout` | canisters/shielded-pool/src/payout_retry.rs:16-43 | Where each counter, the presence byte and the key stand in the 65 bytes |
| `ByteStrings.LittleEndianPlace` | canisters/shielded-pool/src/payout_retry.rs:16-43 | In a little-endian field byte `i` counts in units of 256 to the power `i` |
| `ByteStrings.BigEndianPlace` | canisters/smoke-alarm-monitor/src/lib.rs:268-298 | In a big-endian field the same, counted from the other end |
| `PayoutTypes.CellAccepted` | canisters/shielded-pool/src/payout_retry.rs:25-42 | A cell is accepted exactly if it encodes a valid control value |
| `PayoutTypes.MemoMessageInjective` | canisters/shielded-pool/src/payout_retry.rs:211-221 | The MAC input determines pool, ledger, spend id and ordinal |
| `PayoutTypes.MemoIdentifiesSpend` | canisters/shielded-pool/src/payout_retry.rs:211-221 | On one ledger a memo belongs to one spend id and one ordinal, given a MAC without collisions on these messages |
| `PayoutTypes.SoundMacExists` | canisters/shielded-pool/src/payout_retry.rs:211-221 | The assumption made about the MAC is satisfiable |
| `TokenLedger.TransferKeepsInv` | canisters/token/src/lib.rs:1687-1812 | One ledger call keeps at-most-once execution of dated transfers; acceptance appends exactly the presented identity and `Duplicate` names the block that executed it |
| `TokenLedger.ExecuteKeepsInv` | canisters/token/src/lib.rs:4014-4063 | Executing a transfer, recording it and pruning expired rows keeps the at-most-once invariant |
| `TokenLedger.DatedTransferExactly` | canisters/token/src/lib.rs:1687-1812 | Each answer to a dated transfer, measured by the block log alone: wrong fee, clock, amount, already executed, funds; executed exactly if none applies |
| `MerkleTree.Tree.UpdateTree` | canisters/merkle-tree/src/lib.rs:552-572 | The climb returns the root of the full depth-32 zero-padded tree including the new leaf, and leaves every cached node equal to its subtree hash, present exactly for non-empty subtrees |
| `MerkleTree.Tree.ComputeZeroValues` | canisters/merkle-tree/src/lib.rs:634-649 | The 33 computed values are the empty-subtree hashes of their levels |
| `MerkleTree.Tree.StoreRoot` | canisters/merkle-tree/src/lib.rs:574-583 | One ring slot changes and the root counter advances |
| `MerkleTree.Tree.constructor` | canisters/merkle-tree/src/lib.rs:184-200 | Initialization yields the empty contents with cache and ring consistent |
| `MerkleTree.Tree.ValidateCommitmentBytes` | canisters/merkle-tree/src/lib.rs:221-237 | Accepts exactly 32-byte canonical field elements, with the error that applies otherwise |
| `MerkleTree.Tree.AppendChecked` | canisters/merkle-tree/src/lib.rs:256-272 | Leaf and payload are appended together at the old count, and cache, ring and counters stay consistent with the contents |
| `MerkleTree.Tree.AppendCommitment` | canisters/merkle-tree/src/lib.rs:240-275 | Succeeds exactly for a 32-byte canonical leaf with at most 1024 bytes of payload while the tree is not full, and appends just that; otherwise nothing changes and the first applicable error is given |
| `MerkleTree.Tree.CheckItems` | canisters/merkle-tree/src/lib.rs:304-318 | The batch validation loop reports exactly the first invalid item's error |
| `MerkleTree.Tree.AppendCommitments` | canisters/merkle-tree/src/lib.rs:285-334 | Succeeds exactly for at most ten valid items that fit, and appends just these in order with consecutive indices, as single appends would; otherwise changes nothing at all |
| `MerkleTree.BatchIsFold` | canisters/merkle-tree/src/lib.rs:285-334 | A batch is accepted exactly when appending its items one by one would succeed throughout, and then the contents agree |
| `MerkleTree.AppendsExactly` | canisters/merkle-tree/src/lib.rs:221-262 | Exactly when a single append succeeds, what it adds, and which error it gives otherwise |
| `MerkleTree.BatchExactly` | canisters/merkle-tree/src/lib.rs:285-318 | Exactly when a batch is accepted, and which check or item decides the error |
| `MerkleTree.PageEntries` | canisters/merkle-tree/src/lib.rs:362-409 | The entries of a page, index, leaf and payload |
| `MerkleSpec.RootOfPaddedList` | canisters/merkle-tree/src/lib.rs:634-653 | The root is the textbook one: the list of 2^32 leaves, filled up with the hash of two zero words, hashed half by half |
| `MerkleTree.Tree.CurrentRoot` | canisters/merkle-tree/src/lib.rs:585-590 | The current root is the full-tree root over all leaves, the empty tree included |
| `MerkleTree.Tree.GetScanHead` | canisters/merkle-tree/src/lib.rs:350-354 | The count is paired with the root over exactly that many leaves |
| `MerkleTree.Tree.GetRootAtIndex` | canisters/merkle-tree/src/lib.rs:424-441 | Answers exactly for the last 100 leaves, with the root over the leaves up to that index |
| `MerkleTree.Tree.IsValidAnchor` | canisters/merkle-tree/src/lib.rs:443-455 | Accepts exactly the last min(100, n+1) roots; nothing stale, nothing else |
| `MerkleTree.Tree.GetScanPage` | canisters/merkle-tree/src/lib.rs:362-409 | A page holds the requested stretch clipped at the end, each entry its own index, leaf and payload; the invariant-violation branch is never taken |
| `MerkleTree.PagesTile` | canisters/merkle-tree/src/lib.rs:362-409 | Following page ends as starts, any page sizes tile the stream without gap or repeat: together they are the entries of one stretch |
| `MerkleTree.Tree.PostUpgrade` | canisters/merkle-tree/src/lib.rs:803-874 | Both counters are re-derived correctly from the stable maps and none of the assertions traps |
| `MerkleTree.StableMapsDetermined` | canisters/merkle-tree/src/lib.rs:552-583 | Cache and ring are functions of the leaves: no two different stable states represent one tree |
| `MerkleSpec.NodeKeyCollision` | canisters/merkle-tree/src/lib.rs:592-594 | Two positions share a node key exactly when they agree on level and on the index modulo 2^32 |
| `MerkleSpec.NodeKeyInjective` | canisters/merkle-tree/src/lib.rs:592-594 | Below capacity no two positions share a node key |
| `MerkleSpec.OffPathUnchanged` | canisters/merkle-tree/src/lib.rs:552-572 | An append changes the hash of no subtree off the new leaf's path |
| `MerkleSpec.UncoveredIsZero` | canisters/merkle-tree/src/lib.rs:634-653 | A subtree without leaves hashes to the zero value of its level |
| `MerkleCache.LevelWritten` | canisters/merkle-tree/src/lib.rs:556-560 | Writing the path node completes its level for the new leaf |
| `MerkleCache.LevelClimbed` | canisters/merkle-tree/src/lib.rs:560-569 | The sibling read, cached or defaulted, is that of the full tree, so combining gives the next path node |
| `MerkleCache.RingStored` | canisters/merkle-tree/src/lib.rs:574-583 | Storing the next root keeps each of the last 100 roots in its slot |
| `MerkleCache.SlotHoldsRecent` | canisters/merkle-tree/src/lib.rs:443-455 | Every occupied slot holds one of the last 100 roots |
| `GateSearch.Explore` | canisters/custody-types/src/lib.rs:5654-5702 | The work list terminates despite re-queuing; it sees exactly the functions reachable from the entry, taints exactly those on some path crossing an in-loop call, and records a shortest call path for each |
| `GateSearch.Visit` | canisters/custody-types/src/lib.rs:5663-5702 | Looking at one function follows the calls of all its definitions and keeps the search invariant |
| `GateSearch.NoteKeeps` | canisters/custody-types/src/lib.rs:5676-5700 | Following one call keeps soundness, breadth-first order of first visits and taint propagation |
| `GateSearch.SearchDone` | canisters/custody-types/src/lib.rs:5663-5702 | An empty queue under the invariant is an exact fixpoint |
| `GateSearch.ListsBounded` | canisters/custody-types/src/lib.rs:5655-5661 | Seen and tainted functions are bounded by the program, the measure that stops re-queuing |
| `GateReport.ReachesSelf` | canisters/custody-types/src/lib.rs:5704-5726 | The recursion flag is true exactly for functions on a call cycle |
| `GateReport.ReachableHistoryAccesses` | canisters/custody-types/src/lib.rs:5728-5783 | Over any call graph: every access in every definition of every reachable function is reported, only such accesses are, each with the context its call paths deserve, its statement and a shortest path |
| `GateSource.CheckSource` | canisters/custody-types/src/lib.rs:5646-5783 | From function bodies to report: every textual access to a history in a function the entry reaches through calls is reported, and every report is one, with its statement, the tag its position and call paths deserve and a shortest call path |
| `GateSource.PointReadMeans` | canisters/custody-types/src/lib.rs:5758-5766 | A point read stands at a text position outside every loop block, in a function no call path calls from inside a loop block and that is on no call cycle |
| `GateSource.TagsMean` | canisters/custody-types/src/lib.rs:5758-5766 | When each of the four tags is given, stated on call paths and text positions, strongest first |
| `GateSource.BuildGraph` | canisters/custody-types/src/lib.rs:5672-5682 | The graph computed from the bodies: an edge where a call site exists, its bit set exactly when some call site lies inside a loop block, each access tagged by its own position |
| `GateSource.EdgesMeanCalls` | canisters/custody-types/src/lib.rs:5676-5682 | Edges and in-loop edges of that graph are exactly the calls and in-loop calls of the text |
| `GateSource.AccessesMeanSites` | canisters/custody-types/src/lib.rs:5734-5757 | The tagged accesses are exactly the scanned sites of the listed histories |
| `BodyScan.ScanFor` | canisters/custody-types/src/lib.rs:5577-5591 | The scanning loop yields the kept matches from left to right, each search resuming behind the last match |
| `BodyScan.CallSitesExact` | canisters/custody-types/src/lib.rs:5577-5591 | In every body the scan finds every call and nothing else if and only if the name, where it can overlap itself, has an ASCII word character before the second copy |
| `BodyScan.AsciiNamesHaveNone` | canisters/custody-types/src/lib.rs:5577-5591 | Names of ASCII word characters satisfy that condition |
| `BodyScan.AccessSitesExact` | canisters/custody-types/src/lib.rs:5734-5750 | In every body the scan finds every whole-word mention and nothing else, under exactly the same condition on the name |
| `BodyScan.CallSitesMean` | canisters/custody-types/src/lib.rs:5577-5591 | A call site is the name, not preceded by an ASCII word character, with a parenthesis behind it after at most white space |
| `BodyScan.AccessSitesMean` | canisters/custody-types/src/lib.rs:5734-5750 | An access is the map's name as a whole word |
| `BodyScan.StatementMeans` | canisters/custody-types/src/lib.rs:5751-5757 | The reported statement is the words between the semicolons on either side, one blank apart |
| `GateMultiplier.PointReadUnmultiplied` | canisters/custody-types/src/lib.rs:5658-5661 | Nothing multiplies the call path of a point read, no in-loop call and no unbounded path, if and only if no function on any path to it is on a call cycle |
| `GateMultiplier.BoundedExactly` | canisters/custody-types/src/lib.rs:5658-5661 | The call paths to a function are bounded exactly when none of them passes through a call cycle |
| `GateMultiplier.RecursiveCallerEscapes` | canisters/custody-types/src/lib.rs:5758-5766 | A program whose read is tagged a point read although a recursive caller multiplies it without bound |
| `BraceScanner.LoopDepths` | canisters/custody-types/src/lib.rs:5600-5626 | After every brace the recorded flag says whether some brace then open was opened by a loop segment |
| `BraceScanner.InLoopAt` | canisters/custody-types/src/lib.rs:5629-5637 | The last mark before a position decides exactly whether the position lies inside a loop block |
| `BraceScanner.ContainsLoopWord` | canisters/custody-types/src/lib.rs:5608-5611 | True exactly when a maximal word of the segment is a loop keyword |
| `BraceScanner.OpensLoopExactly` | canisters/custody-types/src/lib.rs:5600-5626 | A brace opens a loop block exactly if `for`, `while` or `loop` stands as a word between it and the previous `;`, `{` or `}` |
| `BraceScanner.BalanceCounts` | canisters/custody-types/src/lib.rs:5600-5626 | The balance of a stretch is its opening less its closing braces |
| `BraceScanner.AnySiteInLoop` | canisters/custody-types/src/lib.rs:5681-5682 | A call edge is in-loop exactly when one of its call sites lies inside a loop block |
| `Settlement.ConflictExactlyOnce` | canisters/custody-types/src/lib.rs:2198-2312 | In every run at most one conflict event exists; one exists exactly when acceptable evidence of a stopped target met a stored execution or of a running one a stored failure, and it records the first such replay beside the settlement it contradicts |
| `Settlement.SettledForever` | canisters/custody-types/src/lib.rs:2091-2122 | Once settled, outcome and the four pinned fields never change, the conflict bit never clears and the durable outcome stays the settled terminal |
| `Settlement.SettlementHasEvidence` | canisters/custody-types/src/lib.rs:2051-2122 | While a settled proposal exists, its durable outcome is executed exactly if the one observation that settled it saw the target running, and failed exactly if it saw it stopped; its pinned fields describe that observation; stopping never settles |
| `Settlement.DueSettlementHappens` | canisters/custody-types/src/lib.rs:2356-2414 | Acceptable evidence that the target of an open start runs or has stopped settles it, for as long as the proposal exists |
| `Settlement.ReconcilesExactly` | canisters/vault/src/lib.rs:4313-4490 | One reconciliation settles, audits the first contrary observation, or changes nothing; exactly when, and all it writes |
| `Settlement.QuietEventsErased` | canisters/custody-types/src/lib.rs:2356-2414 | Over whole histories, leaving out every rejected, concordant or repeated piece of evidence and every late callback ends in the same state |
| `Settlement.PerformRun` | canisters/vault/src/lib.rs:4217-4490 | The plane object carries out any run by its own methods and audits at most one conflict |
| `Settlement.OnlyStatusMatters` | canisters/custody-types/src/lib.rs:1999-2057 | Among valid evidence, timestamp, order and duplicates of controllers change neither decision nor semantic identity |
| `Settlement.ValidateStartEvidence` | canisters/custody-types/src/lib.rs:2426-2463 | Accepts exactly evidence for the target whose controllers equal the required set, no older than the intent or a day and not from the future; each rejection names what is wrong |
| `Settlement.StartPlane.ExecuteReconcile` | canisters/vault/src/lib.rs:4313-4490 | In place: settles an open start executed exactly if its target was observed running and failed exactly if it was observed stopped, audits the first contrary observation, changes nothing otherwise; replays are answered with the settled outcome, never as success |
| `Settlement.StartPlane.OnCallback` | canisters/custody-types/src/lib.rs:2481-2483 | A callback writes only an executing proposal, executed on success and outcome-unknown on failure; otherwise it is fenced with the state unchanged |
| `Settlement.StartPlane.RecordStartIntent` | canisters/vault/src/lib.rs:4217-4240 | Launching records the intent and enters executing in one write |
| `Settlement.StartPlane.SweepExecuting` | canisters/vault/src/lib.rs:4278-4295 | The post-upgrade sweep turns an executing start, and nothing else, into outcome-unknown |
| `ByteOrder.CanonicalIsTheSet` | canisters/custody-types/src/lib.rs:1999-2004 | Two controller lists have the same canonical form exactly when they have the same members |
| `ByteOrder.LessExactly` | canisters/custody-types/src/lib.rs:1999-2004 | The byte order is decided at the first differing byte, a prefix coming first |
| `ByteOrder.SortAndDedup` | canisters/custody-types/src/lib.rs:1999-2004 | Sorting and deduplicating gives the one strictly ascending list of the members |
| `Monitor.GenerationsIncrease` | canisters/smoke-alarm-monitor/src/lib.rs:544-576 | Committed refreshes carry strictly increasing generations within a heap lifetime, and lifetimes in order |
| `Monitor.SupersededChangesNothing` | canisters/smoke-alarm-monitor/src/lib.rs:564-576 | At most one outstanding attempt owns the slot; any other one finishes without changing state or releasing its successor |
| `Monitor.CommitsAreHonest` | canisters/smoke-alarm-monitor/src/lib.rs:646-778 | Every commit of every run certifies field by field exactly what its own replies justify; on display is the last commit, or before the first a snapshot that claims nothing |
| `Monitor.CertifiedAgreement` | canisters/smoke-alarm-monitor/src/lib.rs:578-631 | In every reachable state the certified leaf decodes to the current snapshot and history is the last `history_capacity` committed refreshes in order |
| `Monitor.RefreshedIsHonest` | canisters/smoke-alarm-monitor/src/lib.rs:669-813 | Whatever the sources answered, however late: every field of the result, statuses, supply bit, backing bit, health, figures and times, is exactly what the replies justify; the treasury read never decides health |
| `Monitor.FiguresAreLastFresh` | canisters/smoke-alarm-monitor/src/lib.rs:669-813 | In every reachable state the displayed figures are those of the last fresh commit, whatever failed or overlapped since |
| `Monitor.FinishNeverStuck` | canisters/smoke-alarm-monitor/src/lib.rs:646-778 | In no reachable state does a finishing refresh produce a snapshot outside the encoding's ranges |
| `Monitor.PromptRefreshCommits` | canisters/smoke-alarm-monitor/src/lib.rs:544-576 | A refresh that finishes within five minutes of its start is never superseded: it commits and releases the slot |
| `Monitor.StartsExactly` | canisters/smoke-alarm-monitor/src/lib.rs:544-562 | A refresh starts exactly if nobody refreshes or the owner is at least five minutes old, who is thereby superseded |
| `Monitor.FiguresAreKept` | canisters/smoke-alarm-monitor/src/lib.rs:780-813 | A refresh that is not fresh keeps every displayed figure |
| `Monitor.AttestationLayout` | canisters/smoke-alarm-monitor/src/lib.rs:825-836 | The bytes an attestation is compared with, field by field |
| `Monitor.StepKeepsInv` | canisters/smoke-alarm-monitor/src/lib.rs:646-778 | Starting, finishing, losing a refresh and upgrading keep ownership, history, leaf and log consistent |
| `Monitor.SolvencyMonitor.constructor` | canisters/smoke-alarm-monitor/src/lib.rs:880-910 | Initialization shows the unhealthy placeholder, certified, with empty history |
| `Monitor.SolvencyMonitor.AcquireRefreshOwner` | canisters/smoke-alarm-monitor/src/lib.rs:544-562 | Refuses exactly while an owner younger than five minutes is at work or the counter is exhausted; otherwise the next generation owns the slot |
| `Monitor.SolvencyMonitor.CommitSnapshot` | canisters/smoke-alarm-monitor/src/lib.rs:578-596 | Snapshot, certified leaf and history, cut to its last entries, move together; the leaf decodes to the snapshot |
| `Monitor.SolvencyMonitor.CommitAndReleaseIfOwner` | canisters/smoke-alarm-monitor/src/lib.rs:564-576 | Refines the guarded commit: only the exact owner commits and releases |
| `Monitor.SolvencyMonitor.PostUpgrade` | canisters/smoke-alarm-monitor/src/lib.rs:929-975 | Refines restoration: trimmed history, leaf certified again, ownership and generations reset |
| `Monitor.PerformRun` | canisters/smoke-alarm-monitor/src/lib.rs:646-975 | The monitor object carries out any run by its own methods, and its certified leaf then decodes to its snapshot |
| `SnapshotCodec.SnapshotRoundTrip` | canisters/smoke-alarm-monitor/src/lib.rs:268-298 | The 131 bytes give back all 16 fields |
| `SnapshotCodec.EncodeInjective` | canisters/smoke-alarm-monitor/src/lib.rs:268-298 | Two different snapshots never share a leaf |
| `SnapshotCodec.DecodeIsStrict` | canisters/smoke-alarm-monitor/src/lib.rs:268-298 | A reader accepts nothing but encodings |
| `SnapshotCodec.LeafLayout` | canisters/smoke-alarm-monitor/src/lib.rs:268-298 | Where each of the 16 fields stands in the 131 bytes, and in which form |
| `SnapshotCodec.CanonicalBytes` | canisters/smoke-alarm-monitor/src/lib.rs:268-298 | The bytes appended field by field are the encoding, 131 of them |
| `Nullifiers.PagedWalkIsExact` | canisters/nullifier-registry/src/lib.rs:257-302 | For any page sizes and any inserts between pages, the walk is strictly ascending, holds only keys present at the end and, after a short page, every key present at the start; with equal counts it is exactly the set |
| `Nullifiers.CursorIsAccepted` | canisters/nullifier-registry/src/lib.rs:281-284 | The last key received is always an acceptable cursor, so a walk is never rejected half way |
| `Nullifiers.BatchAllOrNothing` | canisters/nullifier-registry/src/lib.rs:192-222 | A batch commits exactly when all entries are canonical, distinct and unspent; then precisely these are added, and otherwise nothing changes |
| `Nullifiers.SpentAtMostOnce` | canisters/nullifier-registry/src/lib.rs:160-222 | Over any run of single and batch insertions a key is spent by at most one operation, whose timestamp it is stored with from then on; every other operation containing it is refused |
| `Nullifiers.AcceptedExactly` | canisters/nullifier-registry/src/lib.rs:160-222 | In such a run an operation is accepted exactly when its keys are canonical, distinct and in no operation accepted before it |
| `Nullifiers.StoredExactly` | canisters/nullifier-registry/src/lib.rs:160-222 | The registry holds exactly the keys of the accepted operations, each with its operation's timestamp |
| `Nullifiers.InsertsExactly` | canisters/nullifier-registry/src/lib.rs:160-172 | Exactly when a single insertion succeeds, what it stores, and why it is refused otherwise |
| `Nullifiers.BatchNamesOffender` | canisters/nullifier-registry/src/lib.rs:192-213 | A refused batch names the first malformed entry, or else the first stored or repeated one |
| `Nullifiers.PerformRun` | canisters/nullifier-registry/src/lib.rs:160-222 | The registry object carries out any list of insertions and answers as the run says |
| `Nullifiers.PageExactly` | canisters/nullifier-registry/src/lib.rs:266-302 | A page: at most `limit` stored keys above the cursor, ascending, leaving out a key only when full of smaller ones; and when it is refused |
| `Nullifiers.TimestampsNeverChange` | canisters/nullifier-registry/src/lib.rs:160-222 | Over any run a stored key stays stored with its first timestamp |
| `Nullifiers.StoredKeysAreElements` | canisters/nullifier-registry/src/lib.rs:383-395 | In every reachable registry distinct keys are distinct field elements and none is reduced by the field |
| `Nullifiers.ToNullifierKey` | canisters/nullifier-registry/src/lib.rs:383-395 | Accepts exactly 32 bytes below the modulus, with the applicable error otherwise |
| `Nullifiers.BuildKeys` | canisters/nullifier-registry/src/lib.rs:194-198 | Key building stops at the first malformed entry of the batch and reports that one |
| `Nullifiers.FindSpent` | canisters/nullifier-registry/src/lib.rs:203-213 | The freshness phase finds the first key that is stored or repeats an earlier one |
| `Nullifiers.NextKey` | canisters/nullifier-registry/src/lib.rs:281-299 | The next entry of the ordered map is the least key above the cursor |
| `Nullifiers.Registry.InsertNullifier` | canisters/nullifier-registry/src/lib.rs:160-172 | In place: succeeds exactly on a canonical key not yet stored, then stores it with this timestamp; anything else changes nothing and is told why |
| `Nullifiers.Registry.InsertFresh` | canisters/nullifier-registry/src/lib.rs:216-219 | The write phase adds exactly the batch's keys, all with this timestamp |
| `Nullifiers.Registry.InsertBatch` | canisters/nullifier-registry/src/lib.rs:192-222 | Refines batch insertion in place: both checks precede every write |
| `Nullifiers.Registry.ContainsNullifier` | canisters/nullifier-registry/src/lib.rs:152-155 | True exactly for stored canonical keys; malformed input is never spent |
| `Nullifiers.Registry.SpentAt` | canisters/nullifier-registry/src/lib.rs:331-334 | The stored timestamp of a stored key, nothing otherwise |
| `Nullifiers.Registry.GetNullifiersPage` | canisters/nullifier-registry/src/lib.rs:266-302 | The first `limit` keys above the cursor in ascending order, and the three rejections |
| `FieldUtils.LeLt` | canisters/field-utils/src/lib.rs:125-134 | The byte loop decides integer order of the little-endian values |
| `FieldUtils.IsCanonicalFrLe` | canisters/field-utils/src/lib.rs:102-104 | True exactly below the scalar modulus |
| `FieldUtils.IsCanonicalFqLe` | canisters/field-utils/src/lib.rs:118-120 | True exactly below the base-field modulus |
| `FieldUtils.ModulusValues` | canisters/field-utils/src/lib.rs:60-94 | The committed byte tables are the two moduli |
| `FieldUtils.CanonicalIdentity` | canisters/field-utils/src/lib.rs:95-104 | Canonical encodings are read without reduction, so distinct ones are distinct field elements |
| `FieldUtils.NonCanonicalAlias` | canisters/field-utils/src/lib.rs:95-104 | Every 32-byte encoding the check refuses denotes the same field element as a different one it accepts |
| `SlidingWindow.QuotaHolds` | canisters/vetkeys/src/registry.rs:48-61 | For every nondecreasing run of calls no half-open interval of one window admits more than the quota |
| `SlidingWindow.FivePerDay` | canisters/vetkeys/src/registry.rs:16-44 | Registrations, replacements and revocations are limited to five in any 24 hours each |
| `SlidingWindow.AdmittedWhileRoom` | canisters/vetkeys/src/registry.rs:54-60 | A call is admitted exactly when fewer than the quota were admitted in the window that ends with it |
| `SlidingWindow.StoredWithin` | canisters/vetkeys/src/registry.rs:54-60 | The stored list counts exactly the admissions of any interval the window still covers |
| `SlidingWindow.WaitIsExact` | canisters/vetkeys/src/registry.rs:54-58 | In every reachable state a retry is refused, changing nothing, at every instant before the reported wait, and admitted at it if and only if the quota is positive and the oldest charge live at the call expires within 64 bits |
| `SlidingWindow.SaturatedWaitIsShort` | canisters/vetkeys/src/registry.rs:54-58 | For every quota and window: once the quota is used up at an instant whose window outlasts the clock, the next call is told to wait until the last instant and is refused there |
| `SlidingWindow.LateRevocationRefusedTwice` | canisters/vetkeys/src/registry.rs:42-44 | Five revocations and a sixth just before the end of the clock: told to wait one nanosecond, and refused then |
| `SlidingWindow.RegistrationWindow.ChargeWindow` | canisters/vetkeys/src/registry.rs:48-61 | Refines one charge in place: expired entries dropped, refusal with the wait, or the charge recorded |
| `SlidingWindow.RegistrationWindow.ChargeRegistration` | canisters/vetkeys/src/registry.rs:27-29 | The shared charge under the registration quota and window |
| `SlidingWindow.RegistrationWindow.ChargeReplacement` | canisters/vetkeys/src/registry.rs:34-36 | The shared charge under the replacement quota and window |
| `SlidingWindow.RegistrationWindow.ChargeRevocation` | canisters/vetkeys/src/registry.rs:42-44 | The shared charge under the revocation quota and window |
| `FeePolicy.SplitIsExact` | canisters/fee-policy/src/lib.rs:1293-1354 | For every fee: success exactly when the shares sum to 100% and no product overflows; the three reserves sum to the fee, each the floor of its weight, operations with at most two more; the weights are the configured ones, or with staking disabled its share spread in proportion |
| `FeePolicy.RedistributionIsProportional` | canisters/fee-policy/src/lib.rs:1308-1325 | With staking disabled, operations receives exactly the floor of its proportional share of the whole and insurance the rest |
| `FeePolicy.PreviewConserves` | canisters/fee-policy/src/lib.rs:984-1035 | A withdrawal is accepted exactly if the amount is large enough and leaves the recipient enough after both fees; then the protocol fee is the larger of flat minimum and rate share, the recipient gets the amount less both fees, the ledger is debited the amount less the protocol fee, and escrow and liability fall by the whole amount |
| `FeePolicy.PreviewRefusals` | canisters/fee-policy/src/lib.rs:984-1035 | Which refusal applies when, with the amounts it reports |
| `FeePolicy.PrecheckExactly` | canisters/fee-policy/src/lib.rs:1045-1071 | The precheck adds exactly that notes cover the amount and escrow what leaves the ledger |
| `FeePolicy.SharesBooked` | canisters/shielded-pool/src/lib.rs:15275-15352 | Each reserve is credited its own share |
| `FeePolicy.NetMonotone` | canisters/fee-policy/src/lib.rs:984-1035 | For all parameters, an amount above an accepted one is accepted unless the checked product overflows, and nets no less |
| `FeePolicy.FullRateAcceptsNothing` | canisters/fee-policy/src/lib.rs:806-812 | A rate of 100% or more leaves no acceptable withdrawal |
| `FeePolicy.InBoundsFee` | canisters/fee-policy/src/lib.rs:632-700 | In-bounds parameters charge at least 0.1 token and at most the larger of 5 tokens and 5%, without overflow |
| `FeePolicy.ValidateFeeBounds` | canisters/fee-policy/src/lib.rs:632-700 | Accepts exactly the in-bounds parameters; an error names a field that really is out of bounds |
| `FeePolicy.BooksConserve` | canisters/shielded-pool/src/lib.rs:15275-15352 | Over any run of withdrawals notes and escrow fall by exactly the amounts taken, the ledger account by those amounts less their fees, and the reserves grow by exactly those fees less the ones that could not be split; every claim stays covered and no reserve overflows |
| `FeePolicy.WithdrawConserves` | canisters/shielded-pool/src/lib.rs:15275-15352 | One withdrawal moves nothing if refused, and otherwise its amount out of notes and escrow, its amount less the fee out of the ledger account, and the fee into the reserves as far as it can be split |

## Left out

- Poseidon, SHA-256, HMAC and Groth16: function parameters; only the MAC carries an assumption.
- Candid, stable-memory layout of records, certificates, witnesses and CBOR: records are values, stable maps are maps.
- Payout statuses before promotion are one `PrePayout`, the two failures one `Failed`, and the reason strings of pending and unknown are dropped; no decision depends on them.
- Admission of a private spend (proof checks, nullifier insertion, promotion) is reduced to the steps that write the payout record: ordinal reservation, promotion, abandonment, deletion.
- Claiming and the first segment of a run are separate steps and old futures may survive an upgrade, which allows more interleavings than the canister has.
- TokenLedger.TransferKeepsInv: balances, the live fee and fee-burn routing are chosen by the environment, because no payout property depends on how the ledger arrives at them.
- Ledger balances, the live ledger fee, fee-burn routing and how many expired dedup rows one call prunes are chosen by the environment at each call.
- The life of the pool's withdrawals and disbursements, and the treasury notification that follows a flush: the former appear only as calls of the pool under memos of another length, the latter not at all, so a batch lost after its drain is not counted.
- The pool-principal and controller checks of every endpoint, and the authority read-backs.
- Merkle `get_payloads`, `get_leaf` and plain counters: thin reads. The key packing `(level << 32) | masked index` is written as a sum of disjoint ranges.
- Comment stripping and function-span detection of the gate: heuristic text scanning; the gate starts from the list of function names with their bodies. Recorded paths are a map instead of an association list, and the graph is computed once instead of at every visit.
- BraceScanner.LoopDepths: positions count characters rather than UTF-8 bytes.
- GateReport.ReachableHistoryAccesses: in-loop bits and statements are those of the given graph; `GateSource.CheckSource` computes them from the text.
- Settlement.StartPlane.ExecuteReconcile: releases no single-flight lock and answers no other action kind, because the plane holds one start proposal.
- Settlement covers one start proposal; single-flight bookkeeping, the upgrade-action reconciliations and the other action kinds of the Vault are not modelled.
- Monitor: the manual refresh rate limit, the older checkpoint layout, configuration principals and timers; refreshes in flight do not survive an upgrade.
- Nullifiers: the registry's ordered map is a map whose next entry above a cursor is searched for; the hex text of an error is the key itself.
- SlidingWindow: the stored list starts empty; an adopted list with times in the future is not considered.
- FeePolicy: deposit-side previews and quotes, per-update movement caps, treasury runway, and the update cooldown's clock.
- FeePolicy.WithdrawConserves: precheck, transfer and accounting are one step.
- FeePolicy.BooksConserve: the withdrawal's asynchronous life between precheck and confirmed transfer is one step, and only withdrawals move the books.
- Threshold keys, tickets, wallet, website, watcher scripts and build plumbing.
