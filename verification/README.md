# Verified model of the arbitrage executors, the mutation journal and the discovery scripts

The repository trades atomically on chain and keeps a signing journal off chain. This project models both and proves
what they are for:

- **Universal executor** (`UniversalNet`, `UniversalExecutor`). `UniversalNet` gives the net effect of a plan on tokens,
  v2 pairs and every other venue. `UniversalExecutor` is the contract step by step: approvals and revocations, token
  transfers, callbacks from v3 pools, the PoolManager and Morpho, transient phase and v3 context, snapshots restored on
  revert. Every entry point is tied to its net effect, so what is proved about the net effect holds of the contract.
- **Properties of plans** (`ActionLaws`, `Settlement`, `InventoryProtection`, `FundingModes`, `CyclicPlan`, `CyclePurity`,
  `SinglePairPlan`). `ActionLaws` and `Settlement` say what actions, runs, executions and quotes are in terms of balances,
  pairs and calls before and after, and exactly when they succeed; the others prove laws of whole plans. Below them is the
  arithmetic (`ConstantProduct`, `DeltaPacking`).
- **Re-entrancy** (`PhaseMachine`). Here the outside world is hostile: while the executor waits in any call, anyone may
  enter any of its functions, nested to any depth, and any frame may revert.
- **Cycle executors** (`PathCodec`, `CycleNet`, `CycleExecutor`, `FixedRoute`, over the accounts in `Ledger`, which the
  universal executor shares). The generic and WETH contracts are one machine with two configurations; the fixed route is
  a second implementation.
- **Journal** (`AuditLog`, `WalletChain`, `Reconciliation`, `MutationJournal`, `LedgerKeeping`, `GivingUp`,
  `JournalProcess`). `MutationJournal` is a step system in which every read the code relies on, every durable write, every
  broadcast, every crash and every move of the chain is one step. `LedgerKeeping` says what the ledgers tell about the
  balances, and `GivingUp` on which readings closing a mutation as abandoned can cost a profit. `JournalProcess` is the
  code of `execute` and `reconcile`, with the chain moving and the process possibly dying before each write.
- **Scanner, search and workers** (`LogScanner`, `CensusProcess`, `CycleSearch`, `WorkerPool`, `QuoteSelection`).

Pools, routers, Morpho and the PoolManager are deterministic and stateful: their answers are arbitrary functions of the
calls served so far (`Market`). They behave: one callback per call, at most the approved amount pulled, exactly what they
report paid. A revert restores a snapshot. `uint256`, `int256`, `int128` and `uint160` bounds are written out where the
code depends on them. Nondeterminism in the scripts (which task ends next, where a process dies, what a reader sees, how
the chain moves) is arbitrary choice, so what is proved holds for every schedule.

## Where a promise does not hold

Each of these is a lemma with concrete values, next to a lemma that says exactly when the promise does hold.

- `docs/stories/implementation.md:26` and `docs/stories/implementation.md:94` have the contract tests assert zero
  residuals and zero router allowances. Such an assertion speaks for the routers of a test, not for every run: on every
  accepted route that exits through the v3 router, a router that pulls less than it was offered leaves exit quote in the
  executor and the same amount approved, and the execution still succeeds
  (`CycleNet.ResidualIsPossible`, `CycleExecutors.AllowanceIsDust`). Exactly the routes whose exit is the identity or one
  direct pool never do (`CycleNet.ResidualExactlyWhen`). The same on the entry side always reverts.
- A cyclic plan of the universal executor need not be pure composition: an Earn router may pull less than it is offered,
  and within `maximumResidual` the plan still succeeds (`CyclicPlan.ResidualCanSurvive`). A single run is pure, with
  every residual zero, exactly when each of its hops pulls all it is offered (`CyclicPlan.PureExactlyWhenAllPulled`). What
  a caller can check beforehand is the plan: every success on every market is pure exactly when each Earn swap spends a
  token other than settlement whose `maximumResidual` is zero (`CyclePurity.PureExactlyWhenNoSlack`).
- `src/policy.mjs:229-232` and `docs/operations.md:858` take two quiet readers past the deadline as proof that a
  transaction is absent. A reader's five lookups run concurrently; when every reader's head ran past its four other
  lookups over one height, giving up is allowed although the transaction can have been executed there
  (`Reconciliation.AbandonmentCanBeWrong`, `Reconciliation.AbandonmentIsRightExactlyWhen`), and some run of the journal
  from its start gets there (`GivingUp.OvertakenRunLoses`, `GivingUp.GivingUpNeverLosesExactlyWhen`). The journal stays
  safe all the same (`MutationJournal.JournalIsSafe`); the profit of that execution is missing from the ledger and nothing
  else is (`LedgerKeeping.GivingUpLoses`, `LedgerKeeping.BalanceIsAccounted`).
- The scanner's evidence file can lose coverage in two ways. A chunk that was cut short leaves records past the cursor;
  a reorganisation that replaces their blocks but not the cursor's goes unnoticed
  (`CensusProcess.StaleTailSpoilsCoverage`, `LogScanner.ReviewCoversExactlyWhen`). A rewind that dies between rewriting
  the evidence file and the state file, followed by a return to the old chain, loses the dropped records
  (`CensusProcess.TornRewindLosesCoverage`, `CensusProcess.TornCoversExactlyWhen`). Which files are safe to start on can
  be seen beforehand (`CensusProcess.AcceptedCoversExactlyWhen`).

A plan whose tokens repeat still refines composition when no hop spends what an earlier Earn swap spent, and otherwise
when nothing is left over (`CyclicPlan.CyclicPlanIsComposition`). The fixed and the generic executor agree without any
bound on leg outputs: an entry output beyond int128 reverts in both, in the fixed one because the truncated amount leaves
the currency unsettled (`FixedRoutes.FixedAgreesWithGeneric`, `FixedRoutes.FixedExecutor.UnlockCallback`).

## Assumptions

- Hashes are identities: equal hashes, equal bytes; a block hash fixes the chain up to its block.
- The wallet lock is mutual exclusion, and the wallet's nonce moves only through journaled transactions of the two
  execution lanes. Nobody else pays the executors.
- A block holds at most one of the wallet's transactions.
- In `PhaseMachine`, where everyone else is hostile, two counterparties are trusted: Morpho calls `onMorphoFlashLoan`, and
  the PoolManager calls `unlockCallback`, only on the contract that is calling them, once per call, and each passes back
  that contract's own data.
- A reorganisation of the wallet's chain is shallower than the configured number of confirmations, and a replacing block
  is not older than any block seen before. Readers answer from prefixes of the current chain.
- Between two scanner runs the chain changes only at or after the rewind point (20 blocks before the cursor), or after
  the last committed block when there is no cursor; while a process runs the chain only grows. Timestamps never decrease.

## Model

| member | source | states |
|---|---|---|
| ConstantProduct.AmountOutIsLargest | contracts/UniversalAtomicExecutor.sol:367-369 | an integer output passes the pair's fee-adjusted product check exactly when it does not exceed the formula's output |
| ConstantProduct.AmountOutIsMonotone | contracts/UniversalAtomicExecutor.sol:367-369 | a larger input never buys less |
| ConstantProduct.AmountOutBelowReserve | contracts/UniversalAtomicExecutor.sol:367-369 | with a positive input reserve the output stays below the output reserve |
| ConstantProduct.FormulaFitsUint256 | contracts/UniversalAtomicExecutor.sol:367-369 | for 112-bit reserves and amounts no intermediate product overflows |
| ConstantProduct.ProductNeverFalls | contracts/UniversalAtomicExecutor.sol:367-372 | a trade at the formula's output never lowers the reserve product |
| DeltaPacking.UnpackPack | contracts/UniversalAtomicExecutor.sol:602-613 | splitting a packed delta recovers every pair of int128 amounts |
| DeltaPacking.PackUnpack | contracts/GenericAtomicArb.sol:365-376 | every 256-bit word is the packing of the pair it splits into |
| DeltaPacking.ValidationIsExact | contracts/UniversalAtomicExecutor.sol:288-304 | for every admitted input the validated output is the pool's own, and validation succeeds exactly when the pool took that input and paid something |
| InventoryProtection.EveryPrefixProtects | contracts/UniversalAtomicExecutor.sol:329-355 | after any prefix of any action list every tracked token is at or above its baseline, and every other token is not below where it started |
| InventoryProtection.ActionProtects | contracts/UniversalAtomicExecutor.sol:329-466 | one action of any of the six kinds keeps every token's floor |
| ActionLaws.RefusedAmounts | contracts/UniversalAtomicExecutor.sol:540-551 | an action that spends is refused with InvalidPlan when its token is not tracked, InsufficientPrincipal when nothing is above the baseline, and InvalidAmount when it asks for more than is above the baseline or more than int128 |
| ActionLaws.SwapSucceedsExactlyWhen | contracts/UniversalAtomicExecutor.sol:329-426 | a swap that may spend x succeeds exactly when its venue, canonical and given exactly x, answers: a v2 pair takes x and pays the most its own fee check admits, a v3 pool and the manager take exactly x, an Earn router at most x; the output is at least the minimum and no other balance, pair or call changes |
| ActionLaws.RemovalSucceedsExactlyWhen | contracts/UniversalAtomicExecutor.sol:447-466 | a removal succeeds exactly when the pool is usable and the plan tracks every one of its tokens; shares fall by what the router pulled, at most x, and every token grows by the outputs at its positions |
| ActionLaws.DepositSucceedsExactlyWhen | contracts/UniversalAtomicExecutor.sol:428-445 | a deposit succeeds exactly when every token of the usable pool has something above its baseline; all of it is offered, no more is pulled, and the pool token rises by what the router reports, at least the minimum |
| ActionLaws.ActionSucceedsExactlyWhen | contracts/UniversalAtomicExecutor.sol:329-355 | any action succeeds exactly when it can obey these laws, offering what it was asked to spend, or all above the baseline when asked for 0 |
| ActionLaws.RunSucceedsExactlyWhen | contracts/UniversalAtomicExecutor.sol:329-355 | a run succeeds exactly when worlds from its start to its end exist that every action obeys in turn |
| ActionLaws.RunTouchesTracked | contracts/UniversalAtomicExecutor.sol:447-466 | no run, with swaps, deposits and removals in any order, changes the balance of a token the plan does not track |
| Settlement.AcceptedExactlyWhen | contracts/UniversalAtomicExecutor.sol:491-522 | validation accepts exactly the live, bounded plans with distinct non-zero tracked tokens, settlement among them, whose actions name tracked tokens; any other plan fails alike in both modes and as a quote |
| Settlement.InventorySucceedsExactlyWhen | contracts/UniversalAtomicExecutor.sol:203-218 | execution from inventory succeeds with a given profit and world exactly when the plan is accepted, its actions lead there within the snapshot of the balances, settlement gained that profit, at least the minimum, and the residuals hold |
| Settlement.FlashSucceedsExactlyWhen | contracts/UniversalAtomicExecutor.sol:220-275 | the same on a loan of a positive principal that the lender has, repaid exactly |
| Settlement.QuoteReportsExactlyWhen | contracts/UniversalAtomicExecutor.sol:245-275 | a quote reports a number exactly when the actions lead on the loan to a world within the residuals whose settlement is that much above what it was and what is owed, or below |
| Settlement.SettledInventory | contracts/UniversalAtomicExecutor.sol:203-218 | on success settlement grows by exactly the reported profit, at least the minimum, every other tracked token ends within its residual of where it began, never below, and no token the plan does not track changes, whatever the actions |
| Settlement.SettledFlash | contracts/UniversalAtomicExecutor.sol:220-275 | the same after a flash-funded run has repaid its loan |
| FundingModes.FundingModesAgree | contracts/UniversalAtomicExecutor.sol:203-275 | with enough inventory and loan liquidity both funding modes succeed with the same profit and the same world, or revert with the same error, a panic standing in exactly where the flash settlement's checked addition overflows; without a principal both revert |
| FundingModes.QuotePredictsFlash | contracts/UniversalAtomicExecutor.sol:245-275 | a quote of d means the flash run succeeds exactly when d reaches the minimum profit, and then with profit d |
| FundingModes.RunRaised | contracts/UniversalAtomicExecutor.sol:540-551 | a run depends on settlement only through balance minus baseline: raising both changes nothing else |
| FundingModes.CheckedRequirementAgrees | contracts/UniversalAtomicExecutor.sol:257-275 | the checked addition in the flash settlement decides as the unbounded one does |
| CyclicPlan.CyclicPlanIsComposition | contracts/UniversalAtomicExecutor.sol:329-355 | a cyclic plan with requested amount 0 in which no hop spends what an earlier Earn swap spent, or nothing is left over, succeeds from inventory exactly when the composed venues with what they left of settlement return principal plus minimum profit and every other leftover is within its residual; profit and final balances are given, and the error otherwise |
| CyclicPlan.CyclicFlashIsComposition | contracts/UniversalAtomicExecutor.sol:220-275 | the same on a loan with no inventory at all, and a quote reports the same margin |
| CyclicPlan.PureExactlyWhenAllPulled | contracts/UniversalAtomicExecutor.sol:411-426 | in either funding mode a success has zero residuals and the pure composition as its profit exactly when every hop of this run pulled all it was offered |
| CyclePurity.PureExactlyWhenNoSlack | contracts/UniversalAtomicExecutor.sol:481-489 | for a cycle in which no hop spends what an earlier Earn swap spent and which succeeds at least once: every success on every market, from any balances and funded either way, has zero residuals and the pure composition as its profit exactly when each Earn swap of the plan spends a token other than settlement tracked with `maximumResidual` 0 |
| CyclePurity.NoSlackPullsAll | contracts/UniversalAtomicExecutor.sol:411-426 | without such slack the residual check lets a run succeed only if every hop pulled all it was offered |
| CyclePurity.SlackerOutcome | contracts/UniversalAtomicExecutor.sol:411-426 | with slack, any pure success becomes an impure one when the Earn router's answer at the slack hop is one unit less |
| CyclicPlan.ResidualCanSurvive | contracts/UniversalAtomicExecutor.sol:481-489 | a concrete accepted cycle that succeeds in both modes and keeps one unit of the token in between |
| CyclicPlan.RunIsComposition | contracts/UniversalAtomicExecutor.sol:329-355 | after every prefix of hops the executor holds the composed flow on top of its baselines and the leftovers |
| SinglePairPlan.SinglePairPlansNeverSucceed | contracts/UniversalAtomicExecutor.sol:357-372 | a plan that only swaps on one v2 pair reverts in both funding modes and is never quoted at its minimum profit |
| SinglePairPlan.RunTrades | contracts/UniversalAtomicExecutor.sol:357-372 | any sequence of swaps on one pair in either direction moves the executor and the pair oppositely and never lowers the reserve product |
| UniversalExecutor.Executor.ExecuteWithInventory | contracts/UniversalAtomicExecutor.sol:203-218 | the step-by-step run returns the net receipt with every ERC-20 and Permit2 allowance, the phase, the v3 context and the manager's account empty, or the net error with nothing changed |
| UniversalExecutor.Executor.ExecuteWithFlash | contracts/UniversalAtomicExecutor.sol:220-243 | the same through Morpho's loan and its callback, repayment allowance included |
| UniversalExecutor.Executor.QuoteWithFlash | contracts/UniversalAtomicExecutor.sol:245-255 | a quote reports the net margin or the net failure and leaves no trace |
| UniversalExecutor.Executor.OnMorphoFlashLoan | contracts/UniversalAtomicExecutor.sol:257-277 | only Morpho with the expected amount in a flash phase gets in; it runs the actions and approves the repayment, or reports or reverts |
| UniversalExecutor.Executor.UnlockCallback | contracts/UniversalAtomicExecutor.sol:279-305 | pays the input, takes the output, restores the enclosing phase and leaves every currency settled |
| UniversalExecutor.Executor.UniswapV3SwapCallback | contracts/UniversalAtomicExecutor.sol:307-317 | pays only the bound pool exactly the bound amount of the bound token |
| UniversalExecutor.Executor.SwapV2 | contracts/UniversalAtomicExecutor.sol:357-372 | a transfer and a pair call have the pair's net effect |
| UniversalExecutor.Executor.SwapV3 | contracts/UniversalAtomicExecutor.sol:374-394 | context, pool call and callback have the pool's net effect and clear the context |
| UniversalExecutor.Executor.SwapV4 | contracts/UniversalAtomicExecutor.sol:396-409 | unlock and callback have the pool's net effect and restore the phase |
| UniversalExecutor.Executor.SwapEarn | contracts/UniversalAtomicExecutor.sol:411-426 | approve, router call and revocation have the router's net effect and leave no approval |
| UniversalExecutor.Executor.AddEarn | contracts/UniversalAtomicExecutor.sol:428-446 | the same for a deposit of every token of a pool |
| UniversalExecutor.Executor.RemoveEarn | contracts/UniversalAtomicExecutor.sol:447-466 | the withdrawal has the net effect of which RemovalSucceedsExactlyWhen says everything, with the approval revoked |
| UniversalExecutor.Executor.AvailableAmount | contracts/UniversalAtomicExecutor.sol:540-551 | the loop finds what an action may spend; AvailableExactly and RefusedAmounts say what that is |
| ActionLaws.AvailableExactly | contracts/UniversalAtomicExecutor.sol:540-551 | x may be spent exactly when it is what was asked for, or all above the baseline when 0 was, positive, within int128 and within what is above the baseline |
| UniversalExecutor.Executor.ValidatePlanCall | contracts/UniversalAtomicExecutor.sol:491-521 | the loops accept exactly the well-formed plans |
| UniversalExecutor.Executor.SnapshotBaselines | contracts/UniversalAtomicExecutor.sol:523-538 | one baseline per tracked token, less the principal for settlement |
| UniversalExecutor.Executor.ValidateResiduals | contracts/UniversalAtomicExecutor.sol:481-489 | passes exactly when no tracked token other than settlement exceeds its residual |
| UniversalExecutor.Executor.FinishRun | contracts/UniversalAtomicExecutor.sol:468-479 | the profit is measured against the settlement baseline plus the principal |
| UniversalExecutor.Executor.RevokePermit2 | contracts/UniversalAtomicExecutor.sol:591-600 | after revocation neither Permit2 nor the Earn router may take anything |
| PhaseMachine.PhasesAreSafe | contracts/UniversalAtomicExecutor.sol:649-673 | in every state hostile nested calls can reach: a v3 context implies a funding phase and a waiting v3 swap, the unlock phase occurs only inside a v4 action, at most one run is active, and nothing is left when the outermost call returns |
| PhaseMachine.StepKeeps | contracts/UniversalAtomicExecutor.sol:203-323 | every entry, return, revert and continuation keeps the nesting of phases, contexts and frames |
| PhaseMachine.UnlockRestoresPhase | contracts/UniversalAtomicExecutor.sol:279-305 | an unlock callback that returns has restored the phase of the run it interrupted |
| PhaseMachine.UnexpectedEntriesChangeNothing | contracts/UniversalAtomicExecutor.sol:257-323 | callbacks from the wrong sender, callbacks without a swap in flight, and entry points during a run change nothing |
| PathCodec.CheckPathIsPathOk | contracts/GenericAtomicArb.sol:337-363 | the validator accepts exactly the empty path between equal endpoints, the packing of one existing pool, and the packing of two through the fixed bridge |
| PathCodec.ValidateV3Path | contracts/GenericAtomicArb.sol:337-363 | the loop over offset reads gives the check's verdict, error included, whatever follows the path in calldata |
| PathCodec.ReadsRecoverPacked | contracts/GenericAtomicArb.sol:398-420 | offset reads of a packed path recover its tokens and fees |
| PathCodec.PackedReadsRecover | scripts/generic-contract-test.mjs:95-103 | packing what the offset reads see gives back every byte string of a path's length |
| PathCodec.DirectPoolIgnoresRest | contracts/GenericAtomicArb.sol:389-420 | the memory reader's pool does not depend on what lies behind the path |
| PathCodec.DirectPoolIsValidatedPool | contracts/GenericAtomicArb.sol:389-396 | the pool a direct swap selects from memory is the one validation checked from calldata |
| CycleNet.QuotesDiffer | contracts/GenericAtomicArb.sol:308-322 | an accepted route enters and leaves through different quotes |
| CycleNet.DeployableBounds | contracts/WethAtomicArb.sol:89-97 | every configuration either contract can be deployed with has a positive cap and floor and two distinct base tokens |
| CycleNet.ExecuteIsComposition | contracts/GenericAtomicArb.sol:154-184 | within its bounds an execution succeeds exactly when the composed four legs return at least the input plus the floor and the entry spent all of the input; the profit is the difference |
| CycleNet.ExecuteSucceedsExactlyWhen | contracts/GenericAtomicArb.sol:154-184 | over all orders: success exactly when the order is live, within cap, floor and inventory, the route fits and the composition returns input and floor; expired and out-of-range orders are refused with their own errors |
| CycleNet.RouteFitsExactlyWhen | contracts/GenericAtomicArb.sol:308-335 | a route is accepted exactly when its target is neither zero, base nor a quote, both pools are PAIR pools of the target with different quotes, and both paths are empty between equal ends or packings of allowed existing hops |
| CycleNet.OrderSucceedsExactlyWhen | contracts/GenericAtomicArb.sol:154-277 | an execution yields a cycle exactly when there are four legs along a fitting route, each on the output and calls of the one before, the first spending all of the input and the last paying input and floor |
| CycleNet.CycleIsItsLegs | contracts/GenericAtomicArb.sol:187-277 | each leg is what its venue answers to exactly the amount it is given: one pool of the path, the router for at most that, or the manager |
| CycleNet.ExecuteIsCompositionWhenConsumed | contracts/GenericAtomicArb.sol:187-277 | with a router that spends what it is offered, success is exactly f(x) - x meeting the floor, and nothing is left behind |
| CycleNet.ResidualExactlyWhen | contracts/GenericAtomicArb.sol:256-276 | for an accepted route: every successful execution on every market leaves no exit quote exactly when the exit does not go through the router |
| CycleNet.ResidualIsPossible | docs/stories/implementation.md:94-95 | for every accepted route that exits through the router, a market where an execution of one unit succeeds and keeps one unit of the exit quote |
| CycleNet.BridgedExitExists | contracts/GenericAtomicArb.sol:337-363 | such routes are accepted: a token back to USDG through the WETH bridge |
| CycleExecutors.CycleExecutor.Execute | contracts/GenericAtomicArb.sol:154-184 | the step-by-step run returns the net receipt with profit in base and unspent exit quote as the only balance changes, and the router's allowances are exactly what it did not pull; a failure has the net error and changes nothing |
| CycleExecutors.CycleExecutor.UnlockCallback | contracts/WethAtomicArb.sol:145-235 | for every feasible pair of entry and exit shapes the manager's account is empty in every currency when the callback returns, and only the manager in the unlock phase gets in |
| CycleExecutors.CycleExecutor.UniswapV3SwapCallback | contracts/GenericAtomicArb.sol:281-296 | pays only the bound pool exactly the bound amount, from the executor on entry and from the manager on exit |
| CycleExecutors.CycleExecutor.SwapV4 | contracts/GenericAtomicArb.sol:230-255 | spends all that is owed in one currency and leaves what the pool pays owed in the other |
| CycleExecutors.CycleExecutor.ValidateRoute | contracts/GenericAtomicArb.sol:308-322 | accepts exactly the routes with well-formed tokens, pools and paths, and raises the error of the first check that fails |
| CycleExecutors.OnlyBaseChanges | contracts/GenericAtomicArb.sol:154-184 | no balance but base changes exactly when no exit quote is left behind |
| CycleExecutors.AllowanceIsDust | contracts/GenericAtomicArb.sol:262-275 | after a success the router's allowance is exactly the exit quote left behind when the exit goes through it, zero in base when the entry does, and what it was in every other case and token |
| FixedRoutes.FixedAgreesWithGeneric | contracts/FixedRouteAtomicArb.sol:127-231 | within the smaller cap both executors revert, or return the same amounts after the same calls |
| FixedRoutes.FixedSucceedsExactlyWhen | contracts/FixedRouteAtomicArb.sol:127-147 | over all orders: the fixed executor succeeds exactly when the amount is positive and at most 15 USDG, the profit floor at least 0.05 USDG, the deadline ahead and the generic executor succeeds with the same order; the receipts agree, and orders out of bounds are refused with their own errors |
| FixedRoutes.SameOrderOnBoth | contracts/FixedRouteAtomicArb.sol:127-231 | run side by side on any order, the two contracts end with the same answer, tokens, calls and allowances up to the cap of the fixed one; beyond it the fixed one refuses and is unchanged |
| FixedRoutes.FixedExecutor.Execute | contracts/FixedRouteAtomicArb.sol:127-147 | the step-by-step run returns the net receipt with the profit in USDG as the only balance change, or the net error with nothing changed; a success was live, within the 15 USDG cap and met its floor |
| FixedRoutes.FixedExecutor.UnlockCallback | contracts/FixedRouteAtomicArb.sol:151-231 | the four legs' answer or the first failing leg's error; every currency is settled for every entry output up to int128, and the entry currency is unsettled for every output beyond it |
| FixedRoutes.FixedExecutor.UniswapV3SwapCallback | contracts/FixedRouteAtomicArb.sol:235-254 | pays only the fixed pool of the current phase |
| FixedRoutes.TruncationLoses | contracts/FixedRouteAtomicArb.sol:190-192 | the int128 cast is exact up to int128 and never beyond |
| AuditLog.FindLatestUnresolved | src/policy.mjs:171-181 | the backward scan finds the latest signed record that nothing after it closes |
| AuditLog.LatestIsOpen | src/policy.mjs:171-181 | in a disciplined log that is the mutation in flight |
| AuditLog.AtMostOneUnresolved | scripts/dual-base-arb.mjs:1264-1265 | at most one signed mutation is unclosed |
| AuditLog.SignedOnlyWhenClosed | scripts/dual-base-arb.mjs:1264-1265 | whatever was signed before something else had been closed in between, and nothing is signed twice |
| AuditLog.ClosedAtMostOnce | scripts/dual-base-arb.mjs:1937-1986 | no hash is closed twice |
| WalletChain.MinedOnce | scripts/dual-base-arb.mjs:743-749 | a nonce is used up by mining, so no transaction is mined twice |
| WalletChain.BalanceIsSum | scripts/dual-base-arb.mjs:1395-1403 | an executor's base balance is its seed plus the profit of its executions in chain order |
| Reconciliation.ConfirmedIsSettled | src/policy.mjs:188-213 | a confirmation is never claimed without a receipt of that outcome in a block that stays |
| Reconciliation.ClassifyExactlyWhen | src/policy.mjs:188-227 | each of the findings is returned exactly when the answers say it: receipts that disagree, a first receipt deep enough or not, a visible transaction, a used nonce, two sources that see nothing, or none of these |
| Reconciliation.DeepIsConfirmed | src/policy.mjs:203-213 | when every answering reader sees the whole chain, what is mined with enough blocks on top is confirmed with its outcome, success or revert |
| Reconciliation.ReplayAllowedExactlyWhen | src/policy.mjs:273-298 | the same bytes may be sent again exactly when two sources answer and the clock of every one is at or before the deadline |
| Reconciliation.AbandonmentAllowedExactlyWhen | src/policy.mjs:237-264 | a mutation may be given up exactly when two sources answer, none saw it or its nonce, and the clock of every one is past the deadline |
| Reconciliation.AbandonmentIsRightExactlyWhen | src/policy.mjs:237-264 | giving up is right on every chain exactly when the readings would never allow it or no height was jumped over by every usable reader, with its receipt, transaction, nonce and pending nonce looked up below and its head above |
| Reconciliation.AbandonmentIsRight | src/policy.mjs:237-264 | on a given chain giving up is right when no height was jumped over by every usable reader |
| Reconciliation.HeadInTimeIsEnough | scripts/dual-base-arb.mjs:1826-1847 | one usable reader whose head is at most one block past any one of its receipt, transaction, nonce and pending-nonce lookups rules the failure out |
| Reconciliation.AbandonmentCanBeWrong | scripts/dual-base-arb.mjs:1826-1847 | for all readings that jumped over one height, a chain of transactions mined within their deadlines on which they allow giving up an executed transaction |
| GivingUp.GivingUpNeverLosesExactlyWhen | scripts/dual-base-arb.mjs:1968-1988 | over all runs of the journal with crashes and reorganisations: giving up on these readings never loses a profit exactly when the readings would never allow it or no height was jumped over by every usable reader |
| GivingUp.OvertakenRunLoses | scripts/dual-base-arb.mjs:1826-1847 | for all readings that jumped over one height, a run of the journal from its start, each transaction signed with the next nonce and a deadline ahead and each earlier one closed, in which giving up loses an executed profit |
| Reconciliation.OvertakenReadings | scripts/dual-base-arb.mjs:1826-1847 | such readings exist: two readers, each with its head two blocks past its other lookups |
| Reconciliation.AbandonedHasExpired | src/policy.mjs:237-264 | whatever the order of the lookups, giving up is allowed only when the deadline has passed on the chain |
| MutationJournal.StepKeepsSafe | scripts/dual-base-arb.mjs:712-753 | every read, durable write, broadcast, crash and chain move the code can take keeps the journal safe, giving up on the code's own guard included |
| MutationJournal.JournalIsSafe | scripts/dual-base-arb.mjs:1880-2012 | in every state of every run, wherever processes crash and whatever readers answer: one unclosed mutation at most, nothing signed while one is open, each closed at most once, and everything broadcast is byte for byte what was persisted and journaled |
| LedgerKeeping.LedgerConserves | scripts/dual-base-arb.mjs:1371-1474 | in runs where no mutation was judged on overtaken readings: balance = seed + recorded profits + the profit of the single open mutation if mined and not yet recorded |
| LedgerKeeping.BalanceIsAccounted | scripts/dual-base-arb.mjs:1371-1474 | in every run: balance = seed + recorded + open and unrecorded + what was given up although executed, so conservation holds exactly when the last is nothing |
| LedgerKeeping.GivingUpLoses | scripts/dual-base-arb.mjs:1968-1988 | giving up turns exactly the mined and unrecorded profit into lost profit |
| LedgerKeeping.StepKeepsInv | scripts/dual-base-arb.mjs:1371-1474 | every step keeps the ledgers in order and lagging by at most one, unless a mutation is judged on overtaken readings |
| LedgerKeeping.CarefulRunKeepsInv | scripts/dual-base-arb.mjs:1371-1474 | so does every state of every run without such a judgement |
| MutationJournal.RecordedOnce | scripts/dual-base-arb.mjs:1455-1459 | no hash is recorded twice, and each entry is the profit of a settled execution |
| LedgerKeeping.PostStateBalanceAgrees | scripts/dual-base-arb.mjs:1395-1403 | the exact post-state balance check never fires, before or after a crash between the two writes |
| MutationJournal.NextTransactionIsFresh | scripts/dual-base-arb.mjs:1476-1512 | a transaction with the next nonce and a deadline ahead was never signed before |
| LedgerKeeping.ClosingCatchesUp | scripts/dual-base-arb.mjs:1459-1472 | when a mutation may be closed every lane's ledger is its executions, in order and complete |
| JournalProcess.Journal.Execute | scripts/dual-base-arb.mjs:1476-1680 | refuses while a mutation or a queued transaction is open, and wherever it stops the journal is safe; whatever it signs has the next nonce and an amount within the balance as read again before signing, and its own deadline; a completed run has recorded a transaction never signed before and closed it |
| JournalProcess.Journal.SignBroadcastWait | scripts/dual-base-arb.mjs:712-753 | persists, journals and broadcasts in that order, dying anywhere |
| JournalProcess.Journal.ExecutionStateFromReceipt | scripts/dual-base-arb.mjs:1371-1474 | records the execution and then closes it, also when run again after a crash in between; refuses for the balance exactly when it differs from the plan's and the profit |
| JournalProcess.Journal.Reconcile | scripts/dual-base-arb.mjs:1865-2018 | ends as the one finding of the answers says: closes a confirmed mutation or is refused by the balance or floor check, gives up or sends again exactly as flags and clocks allow, and leaves it open otherwise; what is mined deep enough on the whole chain the readers saw never stays open; only the persisted bytes are sent, and the journal stays safe for every order of lookups |
| JournalProcess.Journal.PersistSignedRaw | src/journal.mjs:34-48 | one file per hash, never with other bytes |
| JournalProcess.Journal.Operate | scripts/dual-base-arb.mjs:1476-2018 | any number of processes in any order keeps the journal safe and every balance accounted for, with nothing lost when no reading that gave something up was overtaken |
| LogScanner.ReviewCoversExactlyWhen | scripts/earn-competitor-census.mjs:246-272 | reviewing the next range extends coverage over it exactly when no stale record stands in its way |
| LogScanner.ReviewKeepsDistinct | scripts/earn-competitor-census.mjs:247-263 | no evidence id occurs twice, and the file only grows |
| LogScanner.FoundIsCanonical | scripts/earn-competitor-census.mjs:220-263 | the records found in a range are exactly its canonical ones |
| CensusProcess.FindRetentionStart | scripts/earn-competitor-census.mjs:148-158 | the binary search returns the first block recent enough, or the head when none before it is |
| CensusProcess.Census.VerifyCursor | scripts/earn-competitor-census.mjs:181-208 | keeps a cursor whose block still stands, throws on a shorter chain, and otherwise drops exactly the records of the last 20 blocks before the cursor but never before the start; covers exactly the range up to the next block if and only if the files were startable |
| CensusProcess.Census.InitialState | scripts/earn-competitor-census.mjs:160-179 | a first start skips every scannable block that is too old and no other |
| CensusProcess.Census.ScanChunk | scripts/earn-competitor-census.mjs:210-289 | from any start: a pass that advances ends at the chunk's end or one past the safe head, whichever is first, and doubles the chunk up to its cap; a failed read halves it down to 100; it returns unchanged exactly when everything up to the safe head is scanned; it adds canonical records only, none past the safe head, also when it throws or dies |
| CensusProcess.Census.Process | scripts/earn-competitor-census.mjs:295-333 | from any files and after any number of passes evidence is distinct and the chunk within its bounds; from good startable files coverage is exact; wherever it dies the files are fit for another start |
| CensusProcess.Census.Lifetime | scripts/earn-competitor-census.mjs:302-331 | the same over any number of runs with reorganisations between them; coverage is exact if every run was started on startable files |
| CensusProcess.ReorgKeepsDisk | scripts/earn-competitor-census.mjs:181-208 | a reorganisation behind the rewind horizon keeps what the files promise |
| CensusProcess.AcceptedCoversExactlyWhen | scripts/earn-competitor-census.mjs:181-186 | a start the cursor check accepts covers exactly its range if and only if the files are startable, which can be seen beforehand |
| CensusProcess.TornCoversExactlyWhen | scripts/earn-competitor-census.mjs:190-194 | an interrupted rewind whose cursor matches again is covered exactly when the dropped blocks held no record |
| CensusProcess.StaleTailSpoilsCoverage | scripts/earn-competitor-census.mjs:181-186 | for every configuration: block 1 is within the safe head, a pass appends its record and dies before committing; after the reorganisation the startup check accepts the cursor and the pass that commits block 1 leaves a record the chain does not have |
| CensusProcess.TornRewindLosesCoverage | scripts/earn-competitor-census.mjs:187-194 | concrete files and chains where an interrupted rewind loses a record |
| CycleSearch.EnumerateCycles | scripts/earnonhood-research.mjs:138-165 | the output is exactly the closed walks of 2 to maxHops steps with distinct pools and distinct intermediate tokens, each once when pools and their tokens are distinct |
| CycleSearch.SearchFinds | scripts/earnonhood-research.mjs:140-162 | from any open walk the recursion finds exactly the cycles that begin with it |
| CycleSearch.SearchOnce | scripts/earnonhood-research.mjs:140-162 | and none of them twice |
| CycleSearch.Enumerator.WalkFrom | scripts/earnonhood-research.mjs:140-162 | the recursion over the shared list appends the search's result and nothing else |
| WorkerPool.MapWithConcurrency | scripts/earnonhood-live.mjs:765-778 | under every interleaving, by the time every worker has ended and also after a rejection: tasks start once each and in order, at most `concurrency` run at once, all start unless every worker failed; the promise is fulfilled with every output in its slot exactly when every task succeeds |
| WorkerPool.Pool.Claim | scripts/earnonhood-research.mjs:200-213 | each index is claimed once |
| WorkerPool.Pool.Drain | scripts/earnonhood-research.mjs:200-213 | whoever ends without failing claims again, also after another worker has failed; all that is claimed ends |
| QuoteSelection.ExactQuotesAtBlock | scripts/earnonhood-live.mjs:780-788 | every input gets its own quote in order, failures included |
| QuoteSelection.BestByRoute | scripts/earnonhood-live.mjs:790-854 | from quotes in any order: one quote per route that has a usable one, none of its route earning more and none as much on a smaller input, in descending order of profit with ties by route id |
| QuoteSelection.SortRanks | scripts/earnonhood-live.mjs:790-799 | sorting with the comparator keeps the quotes in descending profit, ties by route id and then by smaller input |

## Left out

- Tokens that take a fee on transfer, rebase or call back; v2 pairs holding more than their reserves.
- The inside of pools, hooks, the Earn pools, Morpho, Permit2 (its expiry included) and the PoolManager's own solvency and
  int128 accounting bounds.
- Constructor seeding swaps, withdrawals from the cycle executors, events, gas and native ETH.
- UniversalExecutor.Executor.ExecuteWithInventory: re-entrant callers are modelled in PhaseMachine, not in this class.
- JournalProcess.Journal.Reconcile: a reader's answers come from prefixes of one chain, so a reorganisation between two
  lookups of the same reader is not covered.
- Deployment and withdrawal mutations, the strategies reconciled by other scripts, authorization checklists, net-profit
  floors and wallet-ETH checks (each may refuse at any time), and the watch loop's scheduling around `reconcile`.
- JournalProcess.Journal.PersistSignedRaw: a file is written as a whole or not at all; appends to the audit log likewise.
- CensusProcess.Census.Process: enriching old records (`migrateRecords`) and the published snapshot are not modelled;
  evidence is identified by its transaction's hash.
- CyclePurity.PureExactlyWhenNoSlack: where a later hop spends what an Earn swap left, what becomes of it depends on
  amounts; for such cycles only the runs that leave nothing are covered (`CyclicPlan.CyclicPlanIsComposition`).
- QuoteSelection.SortRanks: the built-in sort is modelled as a stable insertion sort; its algorithm is not.
- Floating-point estimates, refinement grids, board and report code.
