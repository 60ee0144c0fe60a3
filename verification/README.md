# Money and equity flows: a Dafny model

The backend moves money and equity tokens. This project models the arithmetic and the stored
ledgers behind that and proves what they keep. Methods are in the source's own form (loops,
overwritten fields, batches, recursion); each is proved against a specification function, and
the properties are proved about that function.

- **Airdrop snapshots** (`Sorting`, `AirdropMatching`, `AirdropOptimality`, `AirdropCoverage`,
  `AirdropService`, `AirdropIncremental`, `AirdropSnapshot`, `AirdropRounds`). Balance pairs
  become CREDIT, DEBIT and UNKNOWN rows; a nested loop pays each debit out of strictly earlier
  credits, oldest first, overwriting both amounts; what is left is weighted by days held, stored,
  and matched again in the next round.
- **Airdrop claims** (`AirdropClaims`, `DeplanUsage`). A fixed pool is shared pro rata and each
  share is handed out at most once, to wallets with enough use in a paginated history.
- **Profit** (`Decimal`, `Batches`, `Ledger`, `ProfitSplit`, `ProfitRecursion`, `ProfitShares`,
  `ProfitOrders`, `ProfitSolvency`, `Commission`). A payment, less treasury, is split between holders with a recursive clamp, sent in batches of
  five, and split again by every holder that is an organisation.
- **Offers** (`InvestOffer`, `Dilution`). A capped offer merges one record per investor; the
  equity is pulled pro rata from the existing holders, in batches that may fail.
- **Contributions** (`ContributionSplit`, `ContributionLedger`, `ContributionService`). Earned
  lamports are split, minted, and taken back when minting fails; members send lamports to each
  other over the same counters.
- **Transactions and mints** (`TxnHistory`, `Confirmation`, `MintLifecycle`). How instructions are
  read, how a submission is confirmed and retried, and how creation, repair and update of an
  organisation's token interleave.

## Conventions

- big.js values are reals with the rounding written out: `toFixed` rounds half away from zero,
  `div` keeps 20 decimals, `Math.round` sends halves up. Profit amounts are counted in millionths
  of a token and equity balances in base units, so that rounding is rounding to an integer.
- The chain, the database and the clock are parameters: lists of parsed transactions, oracles
  that say which batch succeeds, scripts of answers, and `completes` flags for everything between
  a handler's checks and its commit. A handler is one atomic step, except in `MintLifecycle`.
- `AirdropSnapshot.HOLD_PERIOD` holds the two numbers written in `calculate`; the source starts a
  new round by editing them, so theorems over several rounds take the period as a parameter.

## Where the code does not do what one expects

- A wallet's RESULT row has no error exactly when no non-zero balance left through an account that
  the transaction closed: such a transaction has no post balance and adds no row
  (`AirdropSnapshot.BalanceCheckIff`, `AirdropSnapshot.ClosedAccountIsAnError`; over rounds `AirdropRounds.BalanceCheckOverRounds`).
- Tokens that come and go in the same second are not matched (`AirdropRounds.SameSecondIsNotMatched`).
- The recursion of `handleRegularPayment` ignores failed batches, so an organisation that was not
  paid still pays its holders (`ProfitRecursion.FailedBatchStillRecurses`). All organisations are
  safe from this exactly when no organisation among the holders would pay anything on
  (`ProfitSolvency.AllSolventIff`); for the paid organisation of `performPayment` see
  `Commission.NeverDrainedIff`.
- The payouts of a payment can exceed it, exactly when it is rounded up to base units
  (`Commission.WithinPaymentIff`); they never exceed what the organisation received.
- `calculateEquity` does not check that the allocation is at most the percentage that is not
  skipped. A member who invests is skipped with all that it holds, so a majority member can make
  the others owe more than they have (`Dilution.MajorityInvestorOverdraws`). The dilution of
  holders of exactly the rest is safe precisely when the allocation, rounded to base units, is at
  most that rest (`Dilution.SafeIffWithinFree`); for percentages the guard keeps the ratio, and so
  every pull, in range (`Dilution.GuardIff`, `Dilution.DilutionIsSound`).
- One acceptance can record an allocation more than half a unit of the ninth decimal off, exactly
  when the division rounds up onto a tie (`InvestOffer.HalfUnitIff`).
- A transfer of an account to itself is listed as sent (`TxnHistory.HistoryIsNetChangeIff`), and a
  received transfer takes over the label of the instruction before it (`TxnHistory.ReceivedLabelIff`).
- `confirmTxnWithRetry` passes its counter in the place of another parameter and never runs out of
  retries (`Confirmation.FailingIsRetriedForever`); when a lost transaction is resubmitted
  successfully it throws `undefined` (`Confirmation.ThrowsIff`). A contribution minted that way is
  neither confirmed nor reverted (`ContributionService.LostSubmissionIsNotReverted`).
- A contribution of a member that is an organisation is reverted in the counters after its tokens
  were minted and confirmed: announcing it reads the nickname of a user that is not there
  (`ContributionService.ConfirmedMintIsRecordedIff`).
- A hold period in which a wallet is skipped does not count for the tokens that it holds
  (`AirdropRounds.DaysAreHeld`).
- The failing branch of `ensureMint` builds its database update without executing it, so it records
  nothing. A finished token can be undone by a stale write of `updateOrg`
  (`MintLifecycle.StaleWriteUndoesSuccess`) and by a `createToken` that nobody awaits and that fails
  after `ensureMint` has stored another token (`MintLifecycle.FailedCreationUndoesSuccess`), and by
  nothing else (`MintLifecycle.LostToAnOlderTask`); mint and status always agree.

## Model

| member | source | states |
|---|---|---|
| Sorting.StableSortIsStable | src/airdrop/airdrop.service.ts:571-572 | sorting rows by date gives a sorted permutation in which rows of equal date keep their order |
| Sorting.SortOfLaterBatch | src/airdrop/airdrop.service.ts:571-572 | strictly later rows are sorted behind the earlier ones, each part on its own |
| Sorting.SortWithOneMore | src/airdrop/airdrop.service.ts:571-572 | one row more is sorted into the others, which keep their order |
| AirdropMatching.DrainedSums | src/airdrop/airdrop.service.ts:589-607 | one debit takes from the first m rows exactly min(debit, what their strictly earlier credits offer), and no debit row changes |
| AirdropMatching.MatchedShape | src/airdrop/airdrop.service.ts:582-610 | matching changes amounts only, and none of them grows |
| AirdropMatching.MatchedKeepsNet | src/airdrop/airdrop.service.ts:582-610 | matching preserves credits minus debits |
| AirdropMatching.InPlaceIsMatched | src/airdrop/airdrop.service.ts:582-610 | overwriting amounts while the loop runs computes the row-by-row matching: rows not yet visited are untouched |
| AirdropMatching.NotYetTouched | src/airdrop/airdrop.service.ts:582-588 | every row still has its original amount when the running balance adds it |
| AirdropMatching.PaidInFull | src/airdrop/airdrop.service.ts:594-599 | leaving the inner loop at `break` leaves what visiting all remaining rows would leave |
| AirdropOptimality.PrefixDominance | src/airdrop/airdrop.service.ts:582-610 | after any number of rows, on every prefix, the oldest-first matcher leaves at most the credits that any valid assignment leaves |
| AirdropOptimality.MatcherPaysWhatCanBePaid | src/airdrop/airdrop.service.ts:582-610 | when some assignment pays all debits out of strictly earlier credits, the matcher pays them all and leaves the same total |
| AirdropOptimality.SummationByParts | src/airdrop/airdrop.service.ts:612-618 | dominance on every prefix carries over to totals weighted by days that do not grow with the date |
| AirdropOptimality.MatcherIsOptimal | src/airdrop/airdrop.service.ts:582-618 | no valid assignment of debits to strictly earlier credits has a smaller day-weighted `finalAmount` |
| AirdropCoverage.PaidIffCovered | src/airdrop/airdrop.service.ts:582-610 | after k rows all debits are at zero if and only if each was covered by the strictly earlier credits |
| AirdropCoverage.MatcherIsAnAssignment | src/airdrop/airdrop.service.ts:589-607 | covered debits: what the matcher draws is itself a valid assignment that leaves the matched rows, so the minimum is attained |
| AirdropCoverage.FullyMatchedIffCovered | src/airdrop/airdrop.service.ts:582-610 | all debits end at zero iff covered iff a valid assignment exists; the residual credits are then the final `balanceCheck` |
| AirdropService.SortViews | src/airdrop/airdrop.service.ts:571-572 | sorting the row objects sorts their values |
| AirdropService.TakeFromEarlier | src/airdrop/airdrop.service.ts:589-607 | the inner loop over row objects, with its `break`, overwrites both sides as the value-level debit says |
| AirdropService.VisitRow | src/airdrop/airdrop.service.ts:582-609 | one row: running balance of the original amounts, and the debit matched in place |
| AirdropService.MatchAll | src/airdrop/airdrop.service.ts:574-610 | the first loop leaves the matched amounts, and each `balanceCheck` is original credits minus original debits up to that row |
| AirdropService.Collect | src/airdrop/airdrop.service.ts:612-622 | the second loop returns the non-zero rows in order and the day-weighted total |
| AirdropService.AddResult | src/airdrop/airdrop.service.ts:624-639 | a RESULT row only behind kept rows, with the last kept row's wallet and balance, and an error iff that balance is not the recomputed one |
| AirdropService.FinalCalculations | src/airdrop/airdrop.service.ts:570-640 | the whole function: rows, balances, residuals, weighted total and RESULT row of the date-sorted input |
| AirdropIncremental.MatchedOntoKept | src/airdrop/airdrop.service.ts:582-622 | only the non-zero rows of what is already matched decide what later rows leave |
| AirdropIncremental.MatchedIsSettled | src/airdrop/airdrop.service.ts:589-607 | after matching no unpaid debit faces a strictly earlier credit with something left |
| AirdropIncremental.KeepTotals | src/airdrop/airdrop.service.ts:612-622 | dropping zero rows changes neither the balance nor the weighted total |
| AirdropIncremental.ResidualIsStable | src/airdrop/airdrop.service.ts:102-114 | stored residuals are date-sorted, and running on them alone, aged or not, changes nothing |
| AirdropIncremental.IncrementalIsBatch | src/airdrop/airdrop.service.ts:102-114 | a snapshot of the residuals of an older window plus a strictly later window gives the rows, balance and weighted total of one run on everything |
| AirdropSnapshot.RowIsTheMovement | src/airdrop/airdrop.service.ts:199-276 | a transaction with a post balance adds one row: its amount is how far the balance moved, CREDIT when it rose or had no pre entry, DEBIT when it fell, UNKNOWN when it stayed, with the full days to the end of the period |
| AirdropSnapshot.IdleTransactionIsIgnored | src/airdrop/airdrop.service.ts:171-281 | a transaction that failed, has no post balance or moves nothing, wherever it stands, changes neither the stored rows nor the balance nor the weighted total |
| AirdropSnapshot.ParsedNet | src/airdrop/airdrop.service.ts:171-277 | classifying pre/post pairs as CREDIT, DEBIT or UNKNOWN and adding up gives newest balance minus starting balance, plus what left through closed accounts |
| AirdropSnapshot.NetOfSorted | src/airdrop/airdrop.service.ts:571-572 | the balance does not depend on the order of equal timestamps |
| AirdropSnapshot.BalanceCheckIff | src/airdrop/airdrop.service.ts:163-169 | for a gap-free history the recomputed balance is the newest one iff no non-zero balance left through an account without post balance |
| AirdropSnapshot.ClosedAccountIsAnError | src/airdrop/airdrop.service.ts:163-169 | counterexample: tokens come in and the account is closed with them; the recomputed balance is what came in although nothing is left |
| AirdropSnapshot.SnapshotDaysFall | src/airdrop/airdrop.service.ts:110-114 | the rows of a snapshot have days held that do not grow with the date, as the optimality theorem needs |
| AirdropRounds.RoundsAreOneBatch | src/airdrop/airdrop.service.ts:279-281 | any number of successive rounds stores exactly what one matching of the rows of all rounds that are not skipped would store |
| AirdropRounds.OnlyMovementsAreStored | src/airdrop/airdrop.service.ts:612-622 | no stored row is UNKNOWN or has amount zero, after any rounds |
| AirdropRounds.DaysAreHeld | src/airdrop/airdrop.service.ts:110-114 | the days of every stored row are those to the end of its own round and those of the later rounds, except rounds in which the wallet was skipped |
| AirdropRounds.RoundsCarryTheBalance | src/airdrop/airdrop.service.ts:101-281 | over any number of rounds of a gap-free history the stored rows carry the newest on-chain balance plus the drift: what left through closed accounts, less what skipped rounds gained |
| AirdropRounds.BalanceCheckOverRounds | src/airdrop/airdrop.service.ts:163-169 | in every round the recomputed balance is the newest one iff that drift is zero |
| AirdropRounds.NothingBeatsTheMatcher | src/airdrop/airdrop.service.ts:582-618 | in every round, any valid assignment of debits to strictly earlier credits has at least the weighted total of the matcher |
| AirdropRounds.RunningBalances | src/airdrop/airdrop.service.ts:183-276 | in the order of time the balance re-accumulated from a gap-free history with distinct block times is never negative |
| AirdropRounds.RoundsPayAllDebits | src/airdrop/airdrop.service.ts:582-622 | of such a history no round leaves an unpaid debit |
| AirdropRounds.EveryRoundIsOptimal | src/airdrop/airdrop.service.ts:101-281 | in every round of a gap-free history with distinct block times and no skipped round, the draws of the matcher are a valid assignment that pays every debit, and none has a smaller weighted total |
| AirdropRounds.HistoryContinues | src/airdrop/airdrop.service.ts:101-169 | one gap-free history cut into contiguous hold periods: each round continues the balance of the rounds before, and the last one ends at the balance at the end of its period |
| AirdropRounds.HistoryIsInOrder | src/airdrop/airdrop.service.ts:101-169 | the period filter puts each round into its own hold period, and these ascend |
| AirdropRounds.HistoryIsOptimal | src/airdrop/airdrop.service.ts:101-281 | so for every such history with at most twenty transactions in each period and no two in one second, every round pays all debits by a valid assignment of least weighted total |
| AirdropRounds.CalculateRound | src/airdrop/airdrop.service.ts:101-281 | one run of `calculate` on what the rounds before stored saves what the specification stores after this round |
| AirdropRounds.RunRounds | src/airdrop/airdrop.service.ts:101-281 | all runs over one history leave exactly the rows of the specification |
| AirdropRounds.SameSecondIsNotMatched | src/airdrop/airdrop.service.ts:589-593 | counterexample: tokens that come and go in one second are not matched, and both movements count in the weighted total |
| AirdropSnapshot.ParseTransactions | src/airdrop/airdrop.service.ts:171-278 | the loop over parsed transactions: failed ones and those without post balance add no row |
| AirdropSnapshot.CollectRows | src/airdrop/airdrop.service.ts:102-278 | stored rows aged by the hold period and given the newest balance, followed by the new rows |
| AirdropSnapshot.CalculateRows | src/airdrop/airdrop.service.ts:163-281 | the rows of one wallet that is not skipped, its RESULT row, and when that has an error |
| AirdropSnapshot.CalculateWallet | src/airdrop/airdrop.service.ts:101-281 | one wallet of `calculate`: nothing is saved iff more than 20 transactions fall into the period; otherwise the calculated rows, and over a gap-free history the RESULT row has an error iff something left through a closed account |
| AirdropClaims.RoundedError | src/airdrop/airdrop.service.ts:550-555 | a rounded claim is within 1/2 + size/2 * 10^-20 of the exact pro rata share |
| AirdropClaims.ClaimsPreserveOrder | src/airdrop/airdrop.service.ts:550-551 | a larger final amount never gets a smaller claim |
| AirdropClaims.ShareOfHolder | src/airdrop/airdrop.service.ts:550-555 | the stored percentage is the exact one up to the error of the division, and the stored amount is that part of the pool |
| AirdropClaims.PoolBound | src/airdrop/airdrop.service.ts:542-555 | all rounded claims together are within n/2 + n * size/2 * 10^-20 of AIRDROP_SIZE |
| AirdropClaims.AirdropCalculations | src/airdrop/airdrop.service.ts:535-562 | every holder gets its percentage and its part of the pool; a zero total throws before any holder is written |
| AirdropClaims.ClaimService.CreateClaimTransaction | src/airdrop/airdrop.service.ts:382-468 | one atomic claim step: refused, nothing to claim, already claimed, or issued and marked |
| AirdropClaims.ClaimService.SendClaimTransaction | src/airdrop/airdrop.service.ts:471-483 | refused without a nonce account; otherwise the row is marked claimed and then the transaction is sent, and stays marked when sending fails |
| AirdropClaims.RunKeepsInv | src/airdrop/airdrop.service.ts:382-500 | over any run of claim steps each wallet has at most one issued claim, and only if marked, and what was sent is marked |
| AirdropClaims.ClaimIsIssuedIff | src/airdrop/airdrop.service.ts:382-500 | over any run a wallet with a good, unmarked row is issued its stored amount iff the first request that marks the row is a claim that passes the checks |
| AirdropClaims.OneClaimPerWallet | src/airdrop/airdrop.service.ts:382-500 | no wallet is issued more than one claim, and that one is its stored amount |
| AirdropClaims.SentOnlyMarked | src/airdrop/airdrop.service.ts:471-483 | no claim is ever sent for a row that is not marked |
| AirdropClaims.IssuedWithinPool | src/airdrop/airdrop.service.ts:382-555 | everything issued in any run of claim steps stays within the pool and its rounding slack |
| DeplanUsage.DaysAddUp | src/airdrop/airdrop.service.ts:344-365 | grouping by day loses no minutes: each day's duration is the total of that day's transactions, and the days add up to the total of all |
| DeplanUsage.QualifiesIff | src/airdrop/airdrop.service.ts:328-342 | a transaction counts iff it has a transfer by the wallet and a memo |
| DeplanUsage.FirstMemoIs | src/airdrop/airdrop.service.ts:328-342 | what counts is the number in the first memo |
| DeplanUsage.TimesAddUp | src/airdrop/airdrop.service.ts:344-352 | each day's number of uses is that of its qualifying transactions |
| DeplanUsage.CeilDivIs | src/airdrop/airdrop.service.ts:300-308 | days count from the beginning of the period, rounded up |
| DeplanUsage.NextPage | src/api-service/api.service.ts:789-796 | behind the first p transactions the filtered page is the next stretch of the claim period, empty only when none is left |
| DeplanUsage.VisitPage | src/airdrop/airdrop.service.ts:324-359 | the loop over one page counts each transaction once and ends with the last block time |
| DeplanUsage.Scan | src/airdrop/airdrop.service.ts:310-360 | the do/while with page size 6, `before` cursor and `from` filter terminates and counts each transaction of the period exactly once |
| DeplanUsage.DeplanWalletCheck | src/airdrop/airdrop.service.ts:296-380 | the check passes iff the last day has come and the memo minutes of all qualifying transactions reach ten per day |
| Decimal.ToFixedError | src/utils/bigjs.ts:49-51 | `toFixed` is at most half a unit off |
| Decimal.ToFixedMonotone | src/utils/bigjs.ts:49-51 | `toFixed` keeps order |
| Decimal.ToFixedOnGrid | src/utils/bigjs.ts:49-51 | a value with no more decimals than kept is not changed |
| Decimal.TwiceRoundedIff | src/utils/bigjs.ts:49-51 | rounding to 20 decimals and then to 9 stays within half a unit of the ninth iff the first rounding did not create a tie from below |
| ProfitSplit.NormalizeClosedForm | src/payment/payment.service.ts:689-705 | the recursive clamp terminates by counting excess units and is min(amount, whole units left) |
| ProfitSplit.ClampedSplit | src/payment/payment.service.ts:418-436 | after k holders the accumulated amount is min(sum of the rounded shares, amount to split floored to 6 decimals), and no share is negative |
| ProfitSplit.LeftoverBound | src/payment/payment.service.ts:418-436 | equities summing to 100: the leftover is at least zero, and less than one unit or at most the slack of n roundings |
| ProfitSplit.ExactLeftoverBound | src/payment/payment.service.ts:418-436 | with balances of at most 18 decimals that slack is n/2 units |
| ProfitSplit.SplitBetweenHolders | src/payment/payment.service.ts:413-450 | the loop over holders prepares exactly these transfers and picks out the holders that are organisations |
| ProfitShares.EachHolderIsPaid | src/payment/payment.service.ts:413-442 | each holder with equity has one transfer, of its own due to its own account, in the order of the holders, and nobody else has one |
| ProfitShares.OrgHoldersArePicked | src/payment/payment.service.ts:443-449 | the organisations picked out for the recursion are exactly the holders with equity that are organisations, each with its own due |
| ProfitShares.HolderReceives | src/payment/payment.service.ts:418-442 | a holder receives exactly min(its rounded share, whole units that the shares before it leave) |
| ProfitShares.LevelPaysHolders | src/payment/payment.service.ts:390-450 | one level of the handler: every holder receives its due, any other account nothing, and nobody anything without a mint or with nothing to split |
| ProfitShares.TreasuryIsThePercentage | src/payment/payment.service.ts:399-401 | the treasury keeps its percentage of the payment, up to half a unit |
| ProfitShares.HolderGetsItsPercentage | src/payment/payment.service.ts:390-442 | as long as the shares up to its own fit, a holder receives equity/100 of (100 - treasury)/100 of the payment, within the slack of both roundings |
| Batches.OneBatch | src/payment/payment.service.ts:453-490 | one batch of five delivers its whole slice or nothing |
| Batches.InOneBatch | src/offers/offers.service.lite.ts:461-467 | every item is in exactly one of the slices that are sent |
| Ledger.BalanceAfter | src/api-service/api.service.ts:156-178 | a wallet changes by what it receives less what it sends |
| Ledger.SupplyIsConserved | src/api-service/api.service.ts:156-178 | transfers leave the supply of the wallets they run between unchanged |
| ProfitRecursion.LevelIsCovered | src/payment/payment.service.ts:390-450 | an organisation prepares non-negative transfers that sum to at most the payment less its treasury cut |
| ProfitOrders.SequentialIsOrder | src/payment/payment.service.ts:502-515 | running the calls for organisations one after the other is one of the orders in which the three-at-a-time pool may apply their transfers |
| ProfitOrders.OrderSums | src/payment/payment.service.ts:502-515 | in every such order every account sends and receives the same in all |
| ProfitOrders.OrderKeepsBalances | src/payment/payment.service.ts:502-515 | so every order ends in the balances of the sequential one |
| ProfitSolvency.NoOrgOverpays | src/payment/payment.service.ts:390-516 | at every moment of every order of the calls no organisation has paid more than it had and had received, provided the batches that pay organisations arrive |
| ProfitSolvency.NeverInDebt | src/payment/payment.service.ts:390-516 | so in every order its balance never falls below what it was before the payment came |
| ProfitSolvency.OutWithinPrepared | src/payment/payment.service.ts:430-450 | whatever the batches do, an organisation sends at most what it prepares in all calls for it |
| ProfitSolvency.WorstCase | src/payment/payment.service.ts:478-515 | and for some outcome of the batches it sends all of that and receives nothing |
| ProfitSolvency.SolventIff | src/payment/payment.service.ts:390-516 | an organisation stays solvent at every moment, for every outcome of the batches and every order of the calls, iff it prepares no more than it has for this payment |
| ProfitSolvency.AllSolventIff | src/payment/payment.service.ts:502-515 | all organisations do iff no organisation that holds part of the paid one would pay anything on |
| ProfitRecursion.EverythingArrives | src/payment/payment.service.ts:452-490 | that proviso holds when every batch succeeds |
| ProfitRecursion.PaymentIsConserved | src/payment/payment.service.ts:390-516 | every batch succeeding, the payment is exactly what user wallets get plus what organisations keep |
| ProfitRecursion.KeptIsNotNegative | src/payment/payment.service.ts:390-404 | no organisation keeps a negative amount, an active one keeps at least its treasury cut, one without mint keeps everything |
| ProfitRecursion.FailedBatchStillRecurses | src/payment/payment.service.ts:478-515 | an organisation whose own payout failed still pays its holders, for every whole amount |
| ProfitRecursion.TokenLedger.SendBatches | src/payment/payment.service.ts:452-490 | the batch loop applies exactly the batches that succeed |
| ProfitRecursion.TokenLedger.HandleRegularPayment | src/payment/payment.service.ts:390-516 | the handler terminates on acyclic holdings and moves exactly the transfers of the specification |
| ProfitRecursion.TokenLedger.PayOrgMembers | src/payment/payment.service.ts:502-515 | the recursion over the organisations among the holders |
| ProfitRecursion.TokenLedger.PayOrgMember | src/payment/payment.service.ts:504-507 | one recursive call |
| ProfitShares.EveryoneGetsTheirDue | src/payment/payment.service.ts:390-516 | over the whole recursion and for every outcome of the batches, each user wallet receives exactly what it is due as a holder and through the organisations that it holds |
| ProfitShares.WalletBalance | src/payment/payment.service.ts:390-516 | so in every order of the calls its balance grows by exactly that |
| Commission.CommissionRange | src/payment/payment.service.ts:593-596 | the commission is between zero and what the organisation receives |
| Commission.CommissionIsTheRate | src/payment/payment.service.ts:593-596 | the commission is the rate times the payment, up to half a unit |
| Commission.CommissionFlow | src/payment/payment.service.ts:648-684 | commission plus payouts never exceed what the organisation received; the payouts of both splits together do not either |
| Commission.OnGridReceived | src/api-service/api.service.ts:174-174 | on the 6-decimal grid what is received is the payment itself |
| Commission.AllIsPaidOut | src/payment/payment.service.ts:648-684 | for every payment and rate there are two organisations that pay out exactly what is received |
| Commission.WithinPaymentIff | src/payment/payment.service.ts:648-684 | the payouts stay within the payment itself, for all organisations, iff the part of the payment below one unit is less than half a unit |
| Commission.NeverDrainedIff | src/payment/payment.service.ts:648-684 | at every moment of both splits, in every order and whichever batches fail, the paid organisation has at least what it had before the payment, iff what it received covers the commission, its own split and what it prepares below the root organisation |
| Commission.NeverDrained | src/payment/payment.service.ts:648-684 | so it always has when the split of the root organisation does not make it pay |
| Commission.SenderIff | src/payment/payment.service.ts:604-636 | an onboarding payment comes from the bonus wallet iff that has the funds, otherwise the payer pays iff it has them, otherwise it is refused |
| Commission.PaidMoves | src/payment/payment.service.ts:638-660 | the transaction takes the received amount from the sender, leaves the organisation all but the commission, and gives that to the root organisation; nobody else's balance changes |
| Commission.SenderCanPay | src/payment/payment.service.ts:604-636 | the account that pays has what the transaction takes from it |
| Commission.PerformPayment | src/payment/payment.service.ts:589-687 | refused without funds; nothing changes when the transaction is rejected, no split when sending throws although it went through; otherwise transfer from the payer or its bonus wallet, commission transfer and both splits |
| Dilution.PulledWithinBalance | src/offers/offers.service.lite.ts:435-440 | with a ratio of allocation and diluted percentage from 0 to 1, what is pulled from a holder is between zero and its balance |
| Dilution.AffordableIff | src/offers/offers.service.lite.ts:435-440 | every holder of up to a given number of base units can afford its pull iff a holder of that number can: the largest one decides |
| Dilution.GuardIff | src/offers/offers.service.lite.ts:404-440 | for percentages of nine decimals the ratio is from 0 to 1 iff the allocation is at most 100 minus `skipAmount`, a guard the code does not have |
| Dilution.SoleHolderPays | src/offers/offers.service.lite.ts:435-440 | a single remaining holder is asked for exactly the allocation, whatever the decimals of the mint |
| Dilution.SafeIffWithinFree | src/offers/offers.service.lite.ts:393-453 | for every mint of at most nine decimals: no dilution whose payers own exactly what is not skipped overdraws any of them iff the allocation, rounded to base units, is at most that |
| Dilution.MajorityInvestorOverdraws | src/offers/offers.service.lite.ts:280-291 | counterexample with the six decimals that tokens are made with: a member holding 90 percent invests for 20 and is skipped, so 20 percent are pulled from a holder of 10 |
| Dilution.PulledTotalError | src/offers/offers.service.lite.ts:423-451 | the total pulled is within n half-units (9 decimals, then mint decimals) and half a unit of the 20th decimal times the equity of allocation/free times the holders' equity |
| Dilution.AllocationIsPulled | src/offers/offers.service.lite.ts:423-451 | holders owning exactly 100 minus `skipAmount`: the total is within that slack of the allocation |
| Dilution.CalculateEquity | src/offers/offers.service.lite.ts:393-453 | one entry, in member order, for exactly the members that hold tokens, are no recorded investor and are not the given member; a division by zero exactly when everything is skipped and such a member exists |
| Dilution.EntriesAreOfDiluted | src/offers/offers.service.lite.ts:400-451 | the entries are those of the diluted members, with id, wallet and amount of each, in their order |
| Dilution.HasEntryIff | src/offers/offers.service.lite.ts:400-422 | a member has an entry iff it holds tokens, no recorded investor is its user or its organisation, and it is not the given member |
| Dilution.SkipAmountAdds | src/offers/offers.service.lite.ts:404-407 | the skipped percentages are added up |
| Dilution.EquityCollection.MarkBatch | src/offers/offers.service.lite.ts:499-507 | marks the entries of one batch and no other |
| Dilution.EquityCollection.CollectEquity | src/offers/offers.service.lite.ts:455-511 | batches applied or skipped, every entry marked once with the outcome of its batch |
| Dilution.CollectionIsExact | src/offers/offers.service.lite.ts:455-511 | for any failing batches: the buyer gains exactly the successful ones, each holder loses its own pull or nothing, supply is conserved |
| Dilution.MarkedAsCollected | src/offers/offers.service.lite.ts:455-511 | afterwards every entry is processed, and it is marked as failed iff its holder has lost nothing |
| Dilution.DilutionIsSound | src/offers/offers.service.lite.ts:393-511 | calculated, then collected: with a ratio from 0 to 1 nobody is overdrawn, and with all batches succeeding the buyer gets the allocation up to rounding |
| Dilution.EntriesHaveOneWalletEach | src/offers/offers.service.lite.ts:408-451 | members with a wallet each, the buyer's own left out by the query: the entries have distinct wallets and none is the buyer's |
| Dilution.DilutionIsCollected | src/offers/offers.service.lite.ts:393-511 | the whole dilution for any failing batches: nobody below zero, the buyer gains what the successful ones pull, supply conserved |
| InvestOffer.MapSumIsListSum | src/offers/offers.service.lite.ts:208-218 | one prospect per account: the Map has one entry each and its sum is the list sum |
| InvestOffer.StepKeepsInv | src/offers/offers.service.lite.ts:200-346 | one request keeps one prospect per account, the cap, and Approved only at the cap |
| InvestOffer.RunsStayWithinCap | src/offers/offers.service.lite.ts:94-137 | over every run by any accounts with any amounts: never above the cap, and Approved exactly when it is reached (unless declined) |
| InvestOffer.AcceptingIsTakenIff | src/offers/offers.service.lite.ts:94-137 | an accepting request is taken in full iff the offer is pending, the balance and the minimum suffice, the kind of account fits and the sum stays within the cap; then Approved iff the cap is reached; otherwise nothing changes |
| InvestOffer.DecliningIsTakenIff | src/offers/offers.service.lite.ts:341-344 | a refusing request under the same conditions declines the offer and changes nothing else; any other answer changes nothing |
| InvestOffer.InvestedChangesIff | src/offers/offers.service.lite.ts:200-346 | the invested sum changes iff an accepting request with a non-zero amount fits |
| InvestOffer.OnlyTheRequesterGrows | src/offers/offers.service.lite.ts:298-311 | a taken request grows the requesting account's record by its amount and its allocation, and no other record |
| InvestOffer.RunsServeWhatFits | src/offers/offers.service.lite.ts:94-346 | over any run the offer equals first come, first served: every request that fits is taken, none else, and each account has invested exactly what its taken requests add up to |
| InvestOffer.HalfUnitIff | src/offers/offers.service.lite.ts:227-232 | one recorded allocation is within half a unit of the 9th decimal of equity * amount / cap iff the division did not round its 20th decimal up onto a tie of the 9th |
| InvestOffer.AllocationError | src/offers/offers.service.lite.ts:227-232 | and otherwise within half a unit of the 20th decimal more |
| InvestOffer.HalfUnitIsNotEnough | src/offers/offers.service.lite.ts:227-232 | such a tie exists, and half a unit is then exceeded |
| InvestOffer.AllocationsStayNear | src/offers/offers.service.lite.ts:298-311 | an account's recorded allocation is within the slack of its accepted requests of equity * invested / cap |
| InvestOffer.SlackPerAcceptance | src/offers/offers.service.lite.ts:298-311 | that slack is at most half a unit of the 9th and of the 20th decimal per acceptance |
| InvestOffer.AllocationsWithinHalfUnits | src/offers/offers.service.lite.ts:298-311 | one half-unit of the 9th decimal per acceptance when no accepted amount rounds up twice |
| InvestOffer.OfferDocument.InvestedMembers | src/offers/offers.service.lite.ts:206-214 | fills the Map, or throws exactly when a prospect is of the other kind of account |
| InvestOffer.OfferDocument.UpdateOfferStatus | src/offers/offers.service.lite.ts:200-346 | the handler with its checks, as one step on the stored offer |
| ContributionSplit.InvestorsShares | src/contributions/contributions.service.ts:326-353 | the loop over investors returns their parts and the total of these |
| ContributionSplit.SplitAddsUp | src/contributions/contributions.service.ts:204-221 | the parts add up to `lamportsEarned` exactly, whatever the allocations |
| ContributionSplit.ContributorsPart | src/contributions/contributions.service.ts:204-221 | the contributor gets lamportsEarned * (100 - allocations)/100 within n/2 lamports |
| ContributionLedger.IncrementAllCounters | src/contributions/contributions.service.ts:224-234 | applying a split moves each member's counters by its parts and the sum by the sum of the parts |
| ContributionLedger.NegatedCounters | src/contributions/contributions.service.ts:286-295 | the compensating update takes back exactly the parts of the split |
| ContributionLedger.StopUnmoved | src/contributions/contributions.service.ts:203-241 | a stop accounts for every lamport and hour it adds, and for the minted amount |
| ContributionLedger.FinishUnmoved | src/contributions/contributions.service.ts:249-315 | confirm, fail and an unrecorded outcome move nothing; a revert takes away exactly what the contribution had added |
| ContributionLedger.SendCounters | src/users/users.service.ts:494-540 | a send credits the recipient, or a new member, debits the sender, and changes the sum only when sent outside |
| ContributionLedger.StepAccounted | src/contributions/contributions.service.ts:89-315 | every step: only sends move lamports that no contribution accounts for, only outside sends change members' sum minus minted |
| ContributionLedger.StepKeepsInv | src/contributions/contributions.service.ts:122-130 | member ids stay unique, splits stay summed and known, and no member ever has two running contributions |
| ContributionLedger.LedgerOverRuns | src/contributions/contributions.service.ts:203-312 | over any mix of start, stop, confirm, fail, revert and send: members' lamports minus minted ones drop by exactly what is sent outside |
| ContributionLedger.CountersAreExplained | src/contributions/contributions.service.ts:280-309 | over any run the counters are their first values, the sends and the contributions stopped and not reverted: a reverted one leaves nothing |
| ContributionLedger.FirstRecordDecides | src/contributions/contributions.service.ts:249-315 | over any run a stopped contribution ends as the first recorded outcome says: confirmed iff minted, reverted iff rejected and compensated, failed iff rejected and not, whatever is recorded later |
| ContributionLedger.RecordMoves | src/contributions/contributions.service.ts:280-309 | recording a rejected and compensated outcome takes exactly its parts from every member and the earned lamports from the minted ones; any other outcome moves nothing |
| ContributionLedger.EndsAreSaid | src/contributions/contributions.service.ts:249-315 | no contribution is confirmed, reverted or failed without an event that recorded just that |
| ContributionLedger.StartsIff | src/contributions/contributions.service.ts:89-143 | a contribution starts iff the member is the account's own and has none running, with that member's ratio |
| ContributionLedger.StopsIff | src/contributions/contributions.service.ts:145-193 | a stop is carried out iff it completes, the contribution is the account's own and not stopped, and every investor has a user |
| ContributionLedger.StopCredits | src/contributions/contributions.service.ts:196-234 | a stop credits each investor its percentage, the contributor what all of these leave, and the hours |
| ContributionLedger.StopMints | src/contributions/contributions.service.ts:196-204 | the minted lamports are the elapsed hours times the ratio, up to half a lamport |
| ContributionLedger.InvestorsPercentage | src/contributions/contributions.service.ts:335-340 | an investor's share is its percentage, up to half a lamport |
| ContributionLedger.CanSendIff | src/users/users.service.ts:447-470 | a send is possible iff the account's member has the lamports |
| ContributionLedger.ReceiverIs | src/users/users.service.ts:494-530 | a send credits the first member of the recipient, or a new one |
| ContributionLedger.NewMemberIsFound | src/users/users.service.ts:494-530 | the member that a send makes is the recipient's: the next send to it finds it |
| ContributionLedger.NewMemberIs | src/users/users.service.ts:508-520 | it is no investor and has no hours |
| ContributionLedger.SendsOnlyWhatItHas | src/users/users.service.ts:447-540 | no send takes a member below zero |
| ContributionLedger.UnrecordedStaysProcessing | src/contributions/contributions.service.ts:280-282 | a contribution whose outcome is not recorded stays processing and goes on counting, whatever else happens |
| ContributionService.OutcomeIff | src/contributions/contributions.service.ts:249-282 | minted iff submitted, confirmed in some round and announced; rejected iff submitting or announcing threw |
| ContributionService.ConfirmedMintIsRecordedIff | src/contributions/contributions.service.ts:264-312 | a confirmed mint is recorded as confirmed iff every member of the split has a user; otherwise the notification throws, and the catch block takes the minted lamports back from the counters |
| ContributionService.LostSubmissionIsNotReverted | src/contributions/contributions.service.ts:254-282 | when a submission is lost although its resubmission succeeds, the catch block fails on the thrown `undefined` and nothing is reverted |
| ContributionService.OrgStore.UpdateContributed | src/members/members.service.ts:121-133 | increments both counters of one member; an unknown id changes nothing |
| ContributionService.OrgStore.StartContribution | src/contributions/contributions.service.ts:89-143 | starts iff the member exists, belongs to the account and has no running contribution |
| ContributionService.OrgStore.CheckStop | src/contributions/contributions.service.ts:170-193 | a stop is allowed iff found, not yet stopped, the account's own, and every investor has a user |
| ContributionService.OrgStore.RecordStop | src/contributions/contributions.service.ts:195-240 | split, counters and minted amount as one transaction |
| ContributionService.OrgStore.StopContribution | src/contributions/contributions.service.ts:145-247 | the whole stop, which changes nothing when refused |
| ContributionService.OrgStore.MintAndConfirm | src/contributions/contributions.service.ts:249-315 | confirmed, failed, reverted with the compensating updates, or left processing, according to the submission and its confirmation |
| ContributionService.OrgStore.SendAssets | src/users/users.service.ts:432-556 | recipient credited or created, then sender debited; refused without membership or lamports |
| TxnHistory.ReadInstruction | src/account/account.service.ts:212-240 | sign and label of one relevant instruction |
| TxnHistory.GetTxnAmount | src/account/account.service.ts:179-246 | the loop returns the non-zero movements, newest first, each with its label |
| TxnHistory.OneInstruction | src/account/account.service.ts:194-233 | one movement is the account's balance change in a ledger replay, less what it transfers to itself |
| TxnHistory.HistoryIsNetChangeIff | src/account/account.service.ts:179-246 | the returned amounts sum to the net balance change of a replay iff the account transferred nothing to itself |
| TxnHistory.GetUserTxnAmount | src/users/users.service.ts:581-611 | the loop stops at the first non-zero transfer to or from the account |
| TxnHistory.ReadersAgree | src/users/users.service.ts:581-611 | without mints and burns it returns the amount of the last entry of the other reader's list |
| TxnHistory.ReceivedLabelIff | src/account/account.service.ts:184-240 | the label after an instruction is `Received` iff nothing up to it was sent, minted or burnt: labels carry over |
| TxnHistory.EachMovementIsListed | src/account/account.service.ts:184-246 | every movement has one item, in order, with its amount and the label it leaves |
| TxnHistory.BurnIsWithdrawnIff | src/account/account.service.ts:184-240 | a burn is listed as a withdrawal iff the transaction has an instruction of type `transfer` |
| TxnHistory.ReversedAt | src/account/account.service.ts:246-246 | the list is returned newest first |
| TxnHistory.LabelSays | src/account/account.service.ts:184-240 | the label names what the last instruction did that was sent, minted or burnt; a burn is a withdrawal iff there is a transfer |
| Confirmation.LookupsAreBounded | src/api-service/api.service.ts:751-774 | at most retries + 1 lookups; the answer is the last one's, all before it were empty |
| Confirmation.GetParsedTransaction | src/api-service/api.service.ts:751-774 | the recursion makes exactly these lookups |
| Confirmation.EmptyLookups | src/api-service/api.service.ts:751-774 | while nothing is found the first round looks six times and every later one five times |
| Confirmation.ConfirmEnds | src/api-service/api.service.ts:866-891 | the outcome in terms of the first round that neither fails nor loses the transaction |
| Confirmation.ReturnedIsConfirmed | src/api-service/api.service.ts:876-883 | a returned hash is the initial one or one the retry function produced, and it was looked up and found without error |
| Confirmation.ThrowsIff | src/api-service/api.service.ts:880-890 | it throws, and then undefined, iff a transaction is not found although its resubmission succeeds, before any success |
| Confirmation.FailingIsRetriedForever | src/api-service/api.service.ts:886-889 | the retry counter lands in the third parameter: a failing transaction is retried for as many rounds as it fails |
| Confirmation.ConfirmTxnWithRetry | src/api-service/api.service.ts:866-891 | the recursion as it rebinds hash and error |
| MintLifecycle.StepKeepsInv | src/orgs/orgs.service.ts:102-164 | every step, including a stale whole-document write, keeps mint and status in agreement |
| MintLifecycle.MintAgreesWithStatus | src/orgs/orgs.service.ts:596-643 | in every interleaving the stored mint is non-null exactly when `mintStatus` is `success` |
| MintLifecycle.SuccessIsLostIff | src/orgs/orgs.service.ts:596-756 | in any run a stored success is lost iff an update goes on that had read the document before, or a `createToken` starts over or fails; a failing `ensureMint` takes nothing away |
| MintLifecycle.TokenIsKept | src/orgs/orgs.service.ts:596-643 | a stored token is replaced only by one that was already being made, by an update that had read another document, or when a `createToken` starts over or fails: no `ensureMint` that looks later makes another |
| MintLifecycle.EnsureMintEnds | src/orgs/orgs.service.ts:596-643 | left alone, `ensureMint` waits as often as told while a creation is in progress, and then makes and stores a token iff none is stored |
| MintLifecycle.CreateTokenEnds | src/orgs/orgs.service.ts:102-164 | left alone, `createToken` stores the token that it makes |
| MintLifecycle.ReadsAreOlder | src/orgs/orgs.service.ts:722-723 | what a pending update holds is what was stored at some moment before |
| MintLifecycle.LostToAnOlderTask | src/orgs/orgs.service.ts:596-756 | over a whole run: a stored success is lost again iff, after it, an update goes on that had read an older, unfinished document, or a `createToken` starts over or fails |
| MintLifecycle.StaleWriteUndoesSuccess | src/orgs/orgs.service.ts:722-756 | a whole-document write that read before the token was made puts `inProgress` back for good |
| MintLifecycle.FailedCreationUndoesSuccess | src/orgs/orgs.service.ts:102-151 | an `ensureMint` beside a creation stores its token; the creation then fails and writes `null` over it |

## Left out

- JavaScript floating point and Decimal128: amounts, rates and hours are exact numbers, NaN and undefined amounts do not occur.
- AirdropService.FinalCalculations: does not take RESULT rows; reloaded ones have no date, so the source's comparator does not order them.
- AirdropSnapshot.CalculateWallet: a fetch that fails, the exclusion list and the removal of wallets that no longer hold the token are not modelled.
- AirdropRounds.EveryRoundIsOptimal: for hold periods that follow each other and a history without gaps; when two transactions share a second or a round is skipped, AirdropCoverage.PaidIffCovered says which debits are paid.
- The order in which the database returns rows of equal date: the balance does not depend on it.
- DeplanUsage.DeplanWalletCheck: takes a newest-first history with distinct signatures, memos that are numbers, and no missing parsed transactions.
- AirdropRounds.CalculateRound: takes what is saved without its RESULT row as the stored rows of the next round.
- Claim transactions on chain, fees, signatures and the `txnHash` and `txnError` fields: a claim is what is handed out, marked and sent.
- ProfitRecursion.TokenLedger.HandleRegularPayment: needs acyclic holdings, since the code has no other stop, and runs the calls for organisations one after the other instead of three at a time: ProfitOrders.OrderKeepsBalances shows that this ends in the same balances, and solvency is proved for every order; the webhook and the profit counters of members are not modelled.
- ProfitSolvency.NoOrgOverpays: for outcomes of the batches in which the money for organisations arrives; for all outcomes see ProfitSolvency.SolventIff. A batch is applied even when the sender lacks the funds at that moment.
- ProfitShares.HolderReceives: for holders with an account each; a wallet that is listed twice is covered by ProfitShares.EveryoneGetsTheirDue.
- Commission.PerformPayment: the two splits run one after the other, while Commission.NeverDrainedIff holds for every order of both; a payment of nothing from a missing bonus wallet is refused. Commission.NeverDrainedIff is about payers other than the organisation itself.
- InvestOffer.OfferDocument.UpdateOfferStatus: what is moved on chain before a failure is not undone, and only the stored offer is claimed; member offers, sale offers and offer creation are not modelled.
- Dilution.PulledWithinBalance: needs a mint with at most nine decimals, like the amounts themselves.
- Dilution.SafeIffWithinFree: for such mints, and for a rest below 10^11 percent.
- ContributionLedger.LedgerOverRuns: one organisation; a contribution's member of another organisation, the whole-document write of `updateOrg` over `lamportsMinted`, and agreement of chain and database after a revert are not covered.
- ContributionService.OrgStore.SendAssets: the lookup of the recipient and the chain transfer, which always goes to the recipient address of the request, are the `completes` flag.
- TxnHistory.GetTxnAmount: the authority field of an entry and the building of the history around it.
- Confirmation.ThrowsIff: what the retry function throws carries a message, as the errors of the chain client do.
- Confirmation.ConfirmTxnWithRetry: follows a finite script of answers; the code itself need not end.
- A resubmission that is applied twice on chain: a batch is applied once or not at all.
- Non-lite offers, revenue pipelines, user and organisation records, deposits, notifications, Stripe, Telegram, S3 and key handling: thin code around the flows above.
