# Verification of the Biconomy smart account contracts

This project models the parts of the repository where money, identity or order can go wrong, and proves what
they keep over every run:

* the ERC-4337 `EntryPoint` whose source is embedded in `deployments/localhost/EntryPoint.json` (deposits,
  stakes, nonces, and the two-phase bundles of `handleOps` and `handleAggregatedOps`);
* the smart account's ring of modules and its one-time initialisation;
* the MultiSend printer and the cursor loops that parse and execute what it prints;
* the bundling queue of `src/AASigner.ts`;
* the predicted addresses of `SmartAccountFactory` and `Create3`.

## How foreign code is modelled

Every call out of a contract hands control to code the repository does not contain. Such code is a *script*: the
list of public calls it makes back into the modelled contract, each of which may hand control on in the same way,
to any depth, and whether it returns or reverts. All results are for all scripts. A revert restores the state
saved at the start of the frame. Words returned by foreign code, `gasleft()` readings and out-of-gas faults inside
the inner call are part of the script as well. Gas readings fit 64 bits; where they must not grow within a frame,
the predicate `Metered` says so. The hash is an arbitrary function.

The EntryPoint's books (`Ledger.State`) carry four pieces of bookkeeping that the contract does not store: the
prefunds not yet settled, the fees not yet paid out, the ether that arrived without a call, and the log of committed
steps, which a revert cuts back like the chain's own log. `World.seen` records the state at each moment foreign code
gets control, and no revert removes it: a statement about all of `seen` is a statement about the inside of calls that
are undone later too.

## Layout

| file | contents |
|---|---|
| `Words.dfy`, `Bytes.dfy`, `Sequences.dfy` | fixed-width arithmetic, bitwise or, big-endian byte strings, regrouping |
| `ValidationWords.dfy` | the packed authoriser and time range (`Helpers.sol`) |
| `Ledger.dfy`, `Transitions.dfy` | storage, log and books of the EntryPoint; the atomic steps and that each keeps the books |
| `EntryPointSpec.dfy` | validation, execution and bundles as functions of storage and scripts |
| `EntryPointInvariant.dfy` | every function keeps the books, by induction over the scripts |
| `EntryPointEffects.dfy`, `EntryPointActs.dfy` | what each call and each step of a bundle does, told without the functions that compute it |
| `EntryPointTheorems.dfy`, `EntryPointTotals.dfy`, `EntryPointAdmission.dfy`, `EntryPointEquivalence.dfy`, `EntryPointArithmetic.dfy`, `EntryPointProgress.dfy` | the main results |
| `EntryPoint.dfy` | the contract as a class whose methods and loops are proved to compute those functions |
| `ModuleRing.dfy`, `SmartAccountSpec.dfy`, `SmartAccount.dfy` | the module ring, the guarded operations, the class |
| `MultiSend.dfy` | printer, cursor loop and their agreement |
| `BundleQueue.dfy` | queue, protocol, classes |
| `Deployment.dfy` | RLP, predictions, deployments, class |

## Where code and documentation disagree

The model follows the code.

* `getModulesPaginated` documents `next` as the start of the next page (`ModuleManager.sol:54`); paging on from it
  skips it (`ModuleRing.NextIsSkipped`), paging on from the last module returned does not (`ModuleRing.PagesRebuild`).
* The comments on the queue thresholds (`AASigner.ts:145-149`) say that either one triggers a send; the code requires
  both. `queueSize` is never set to 0, so it is not a number and the size threshold never holds a send back
  (`BundleQueue.TickSendsWhen`, `BundleQueue.QueueSizeCounts`).
* The comment on `init` (`SmartAccount.sol:92-93`) says that `_initialSetupModules` rejects an initialised account; the
  check is in `init` itself.
* `BeforeExecution` is documented to separate validation from execution, but `handleAggregatedOps` emits it before the
  validations. Neither it nor `SignatureAggregatorChanged` is in the model's log.
* `unlockStake` narrows the clock to 48 bits, so the delay is enforced exactly for stakes unlocked before 2^48
  (`EntryPointTheorems.DelayEnforced`).
* A nonce word names its key and counter exactly while the counter is below 2^64 (`EntryPointTheorems.GetNonceIsNext`).

## Model

All rows for the EntryPoint cite line 1331 of the deployment file, which holds its complete source.

| member | source | states |
|---|---|---|
| Words.OrFits | deployments/localhost/EntryPoint.json:1331 | The bitwise or of two numbers fits in k bits if and only if both do. |
| Words.OrShifted | deployments/localhost/EntryPoint.json:1331 | Or-ing a k-bit number into one shifted left by k bits loses nothing. |
| Words.WrapAround | deployments/localhost/EntryPoint.json:1331 | Unchecked addition, subtraction and multiplication are exact up to multiples of 2^256. |
| Bytes.RoundTrip | src/utils/multisend.ts:8-15 | Big-endian bytes read back as the number they were written from. |
| Bytes.BigEndian | src/utils/multisend.ts:8-15 | The last byte of a number counts least. |
| ValidationWords.ParsePacked | deployments/localhost/EntryPoint.json:1331 | A packed word is the sum of its fields at bits 0, 160 and 208, and parsing it gives back aggregator and range, with a zero `validUntil` read as forever. |
| ValidationWords.PackParsed | deployments/localhost/EntryPoint.json:1331 | Packing a parsed word gives back the word if and only if it does not spell forever as zero. |
| ValidationWords.IntersectHolds | deployments/localhost/EntryPoint.json:1331 | The intersected range accepts a moment if and only if both ranges do; the account's aggregator goes before the paymaster's. |
| ValidationWords.ShortcutAgrees | deployments/localhost/EntryPoint.json:1331 | The shortcut for the zero word agrees with full parsing on all words if and only if the clock is below 2^48. |
| ValidationWords.JudgePacked | deployments/localhost/EntryPoint.json:1331 | Two packed words are accepted if and only if the account names the expected aggregator, the paymaster none, and both ranges hold now. |
| ValidationWords.JudgeReports | deployments/localhost/EntryPoint.json:1331 | Which fault of two packed words is reported: the account's before the paymaster's, the authoriser before the clock. |
| Ledger.OwedUpdated | deployments/localhost/EntryPoint.json:1331 | Writing one deposit record changes the sum of all deposits and stakes by the difference of that record. |
| Transitions.IncrementDeposit | deployments/localhost/EntryPoint.json:1331 | A deposit increment reverts if and only if the sum needs more than 112 bits; otherwise the narrowing keeps the exact sum. |
| Transitions.DecrementDeposit | deployments/localhost/EntryPoint.json:1331 | Narrowing a reduced deposit to 112 bits keeps the exact difference. |
| Transitions.DepositToKeeps | deployments/localhost/EntryPoint.json:1331 | `depositTo` keeps solvency, the per-account accounts, nonces, stake records and field widths. |
| Transitions.AddStakeKeeps | deployments/localhost/EntryPoint.json:1331 | `addStake` keeps the same books. |
| Transitions.UnlockStakeKeeps | deployments/localhost/EntryPoint.json:1331 | `unlockStake` keeps the same books. |
| Transitions.ReleaseStakeKeeps | deployments/localhost/EntryPoint.json:1331 | `withdrawStake` has its books in order before it hands control to the receiver. |
| Transitions.ReleaseDepositKeeps | deployments/localhost/EntryPoint.json:1331 | `withdrawTo` has its books in order before it hands control to the receiver. |
| Transitions.TakePrefundKeeps | deployments/localhost/EntryPoint.json:1331 | A prefund moves from a deposit to the outstanding prefunds without loss. |
| Transitions.SettleKeeps | deployments/localhost/EntryPoint.json:1331 | Settling splits the oldest outstanding prefund exactly into refund and fee. |
| Transitions.PayOutKeeps | deployments/localhost/EntryPoint.json:1331 | Paying the collected fees leaves the books in order before the beneficiary runs. |
| EntryPointEffects.DepositToDeposits | deployments/localhost/EntryPoint.json:1331 | `depositTo` succeeds if and only if balance and deposit have room, and adds exactly the ether sent to both; no other record changes. |
| EntryPointEffects.AddStakeLocks | deployments/localhost/EntryPoint.json:1331 | `addStake` succeeds if and only if the delay is positive and not shorter than before and the stake is positive and fits; stake and balance grow by the ether sent and the delay is the argument. |
| EntryPointEffects.UnlockStakeUnlocks | deployments/localhost/EntryPoint.json:1331 | `unlockStake` succeeds if and only if the stake is locked and the due moment fits 48 bits; only that moment is set. |
| EntryPointEffects.WithdrawToPays | deployments/localhost/EntryPoint.json:1331 | `withdrawTo` lowers the caller's deposit and the ether held by exactly the amount, and touches no other record and no other account's ether. |
| EntryPointEffects.WithdrawStakePays | deployments/localhost/EntryPoint.json:1331 | `withdrawStake` pays out exactly the stake that is due and clears it; the deposit stays. |
| EntryPointEffects.NoncesCount | deployments/localhost/EntryPoint.json:1331 | `incrementNonce` moves exactly the caller's counter of the key given, an accepted nonce exactly that of its own key, and it is accepted if and only if it is the next. |
| EntryPointEffects.PrefundIsTaken | deployments/localhost/EntryPoint.json:1331 | A prefund leaves the payer's deposit if and only if it covers it, and is last in line. |
| EntryPointEffects.ActivityActs | deployments/localhost/EntryPoint.json:1331 | Foreign code gets control of the storage as it stands; its calls take effect if it returns, and none if it reverts. |
| EntryPointEffects.CallsActInOrder | deployments/localhost/EntryPoint.json:1331 | The calls of foreign code act one after the other, each on what those before it left. |
| EntryPointEffects.PlainCallActs | deployments/localhost/EntryPoint.json:1331 | A call that hands control to no one takes its step or changes nothing. |
| EntryPointEffects.WithdrawToActs | deployments/localhost/EntryPoint.json:1331 | The receiver of `withdrawTo` runs after deposit and balance are reduced; all is undone when it fails. |
| EntryPointEffects.WithdrawStakeActs | deployments/localhost/EntryPoint.json:1331 | The same for `withdrawStake`. |
| EntryPointEffects.NestedBundleIsIdle | deployments/localhost/EntryPoint.json:1331 | A bundle inside a bundle does nothing. |
| EntryPointInvariant.RunActivityKeeps | deployments/localhost/EntryPoint.json:1331 | Foreign code, however nested and including reverted parts, keeps the books, and during a bundle cannot touch outstanding prefunds, fees or the bundle's marks. |
| EntryPointInvariant.RunCallKeeps | deployments/localhost/EntryPoint.json:1331 | The same for each single public call, bundles included; a nested bundle attempt changes nothing. |
| EntryPointInvariant.ValidateAllKeeps | deployments/localhost/EntryPoint.json:1331 | The first loop takes exactly one prefund per operation and accepts exactly its nonce, in order. |
| EntryPointInvariant.ExecuteUserOpKeeps | deployments/localhost/EntryPoint.json:1331 | An executed operation, on whichever path, settles the oldest prefund once, at a cost of gas times price within the prefund. |
| EntryPointInvariant.ExecuteNextKeeps | deployments/localhost/EntryPoint.json:1331 | The unchecked running total of fees never wraps, because the EntryPoint is solvent. |
| EntryPointInvariant.ExecuteAllKeeps | deployments/localhost/EntryPoint.json:1331 | The second loop settles every operation once, in order, and collects exactly the sum of the costs. |
| EntryPointInvariant.BundleKeeps | deployments/localhost/EntryPoint.json:1331 | A completed `handleOps` leaves all nonces, then all settlements, then one pay-out of the exact sum, and nothing outstanding. |
| EntryPointInvariant.GroupedBundleKeeps | deployments/localhost/EntryPoint.json:1331 | The same for `handleAggregatedOps` over the concatenated groups. |
| EntryPointTheorems.EveryRunInOrder | deployments/localhost/EntryPoint.json:1331 | From deployment on, in every run, the books are in order at the end and whenever foreign code has control. |
| EntryPointTheorems.EveryRunSolvent | deployments/localhost/EntryPoint.json:1331 | At each of those points the ether held covers all deposits, stakes, outstanding prefunds and unpaid fees. |
| EntryPointTheorems.EveryRunTraced | deployments/localhost/EntryPoint.json:1331 | At each of those points the ether held is, by the log, what came in less what was paid out, and only ether that arrived without a call counts as forced. |
| EntryPointTheorems.ClaimsAreFunded | deployments/localhost/EntryPoint.json:1331 | A withdrawal succeeds if and only if it is within the deposit, a stake withdrawal if and only if the stake is unlocking and due; ether is never missing. |
| EntryPointTheorems.HandleOpsOutcome | deployments/localhost/EntryPoint.json:1331 | `handleOps` either restores the storage it started from or is a completed bundle: validations before executions, each operation once and in order, the beneficiary paid the sum. |
| EntryPointTheorems.HandleAggregatedOpsOutcome | deployments/localhost/EntryPoint.json:1331 | The same for `handleAggregatedOps`. |
| EntryPointTheorems.BundleCharges | deployments/localhost/EntryPoint.json:1331 | Over a completed bundle each account's deposit changes by exactly its own deposits and withdrawals minus the costs it pays. |
| EntryPointTotals.DepositsConserved | deployments/localhost/EntryPoint.json:1331 | At every point of every run all deposits, outstanding prefunds and charges together are what was deposited and not withdrawn. |
| EntryPointTotals.BundleTotals | deployments/localhost/EntryPoint.json:1331 | Over a completed bundle the sum of all deposits changes by the deposits and withdrawals made meanwhile minus exactly what the beneficiary is paid. |
| EntryPointTheorems.NoReplayInAnyRun | deployments/localhost/EntryPoint.json:1331 | No run accepts the same sender and nonce twice. |
| EntryPointTheorems.AcceptedInSequence | deployments/localhost/EntryPoint.json:1331 | In every run an accepted sequence number is the number of nonces of its key accepted before plus the `incrementNonce` calls before, and the stored counter is the number of both together. |
| EntryPointTheorems.GetNonceIsNext | contracts/smart-account/BaseSmartAccount.sol:60-62 | `getNonce` splits back into its key and counter if and only if the counter is below 2^64, and then it is the next nonce accepted. |
| EntryPointTheorems.ExhaustedKey | deployments/localhost/EntryPoint.json:1331 | A key whose counter has reached 2^64 accepts no nonce. |
| EntryPointTheorems.WithdrawnStakeWasUnlocked | deployments/localhost/EntryPoint.json:1331 | In every run each stake withdrawal follows directly on an `unlockStake` of that account, and that on the `addStake` which set the stake; what is paid is that stake, and the delay then in force has passed since. |
| EntryPointTheorems.DelayEnforced | deployments/localhost/EntryPoint.json:1331 | An unlocked stake is held for its delay if and only if it was unlocked before 2^48. |
| EntryPointTheorems.StakeOnlyGrows | deployments/localhost/EntryPoint.json:1331 | Between any two points of any run, a stake not withdrawn in between has neither shrunk nor got a shorter delay. |
| EntryPointAdmission.CompletedBundleAdmits | deployments/localhost/EntryPoint.json:1331 | Each operation of a completed `handleOps` passed every check: bounded fields, sender, account, paymaster, words and gas limit. |
| EntryPointAdmission.CompletedGroupsAdmit | deployments/localhost/EntryPoint.json:1331 | The same for `handleAggregatedOps`, with each group's aggregator neither 1 nor contradicted, and its signature check passed. |
| EntryPointAdmission.SettledAfterPostOp | deployments/localhost/EntryPoint.json:1331 | An operation with a paymaster context is settled only after a `postOp` that returned, inside the inner call or, after an ordinary inner revert, outside. |
| EntryPointActs.ValidationActs | deployments/localhost/EntryPoint.json:1331 | For all scripts: an operation is validated if and only if it is admitted and, after creation and account have acted, its deposit and nonce fit; then prefund and nonce are taken and the paymaster acts. |
| EntryPointActs.ExecutionActs | deployments/localhost/EntryPoint.json:1331 | For all scripts: an operation is executed if and only if it settles inside the inner call, with everything its own call and `postOp` did and reported as its call ended, or, that undone for an ordinary reason, outside with nothing but the second `postOp` and reported as failed; at gas times agreed price. |
| EntryPointActs.OutOfGasStops | deployments/localhost/EntryPoint.json:1331 | Too little gas for the inner call fails the bundle (AA95). |
| EntryPointActs.BundleActs | deployments/localhost/EntryPoint.json:1331 | For all scripts: a top-level `handleOps` ends exactly where all validations in turn, all executions in turn and one pay-out end, or, when they cannot all be taken, restores the storage. |
| EntryPointActs.GroupedBundleActs | deployments/localhost/EntryPoint.json:1331 | The same for `handleAggregatedOps`, with each aggregator's signature check first, in turn. |
| EntryPointEquivalence.GroupedIsFlat | deployments/localhost/EntryPoint.json:1331 | With no aggregators `handleAggregatedOps` ends exactly as `handleOps` on the concatenated operations, failures included. |
| EntryPointEquivalence.CheckingIsIdle | deployments/localhost/EntryPoint.json:1331 | The checked running total of `handleAggregatedOps` and the unchecked one of `handleOps` always agree. |
| EntryPointArithmetic.GasValuesCheck | deployments/localhost/EntryPoint.json:1331 | The single AA94 check passes if and only if each of the five fields is at most 2^120 - 1. |
| EntryPointArithmetic.PrefundExact | deployments/localhost/EntryPoint.json:1331 | Past AA94 the unchecked prefund is the exact product, below 5 * 2^240. |
| EntryPointArithmetic.PriceBounded | deployments/localhost/EntryPoint.json:1331 | The price is `maxFeePerGas` when the two fees are equal, and otherwise the priority fee plus base fee up to that cap. |
| EntryPointArithmetic.PriceIsAgreed | deployments/localhost/EntryPoint.json:1331 | For every base fee the price is the closed form over the two fees in which all charges are stated. |
| EntryPointArithmetic.PaymasterNamed | deployments/localhost/EntryPoint.json:1331 | The paymaster is what the first 20 bytes of `paymasterAndData` spell, and pays; with fewer bytes the sender pays. |
| EntryPointArithmetic.ValidatedExactly | deployments/localhost/EntryPoint.json:1331 | A validated operation has the exact prefund, exact pre-operation gas and a validation within its limit. |
| EntryPointArithmetic.ChargedExactly | deployments/localhost/EntryPoint.json:1331 | The charge is exactly the gas of the path taken times the price, without wrap-around, and within the prefund. |
| EntryPointArithmetic.PrefundHandOff | contracts/smart-account/BaseSmartAccount.sol:78-86 | With `_payPrefund` as only deposit change of the account, created first if need be, AA21 passes if and only if the deposit already covered the prefund or the transfer succeeded and the prefund fits 112 bits; the deposit is left at the surplus. |
| EntryPointProgress.StillValidates | deployments/localhost/EntryPoint.json:1331 | With foreign code out of the EntryPoint, validation passes if and only if the operation is admitted, its payer's deposit covers the prefund and its nonce is the next. |
| EntryPointProgress.StillBundle | deployments/localhost/EntryPoint.json:1331 | With foreign code out of the EntryPoint, `handleOps` on any list of operations goes through if and only if each, in turn, is admitted, has the next nonce of its key and a payer who can cover it too; then each payer is charged exactly its costs, the nonces are used up, the beneficiary gets the sum, nothing else changes; otherwise nothing changes. |
| EntryPoints.EntryPoint.constructor | deployments/localhost/EntryPoint.json:1331 | A fresh EntryPoint has no deposits, nonces or ether. |
| EntryPoints.EntryPoint.IncrementDeposit | deployments/localhost/EntryPoint.json:1331 | `_incrementDeposit` on the stored mapping. |
| EntryPoints.EntryPoint.DepositTo | deployments/localhost/EntryPoint.json:1331 | `depositTo` and `receive`. |
| EntryPoints.EntryPoint.AddStake | deployments/localhost/EntryPoint.json:1331 | `addStake`, with its four refusals. |
| EntryPoints.EntryPoint.UnlockStake | deployments/localhost/EntryPoint.json:1331 | `unlockStake`, with its refusals. |
| EntryPoints.EntryPoint.WithdrawStake | deployments/localhost/EntryPoint.json:1331 | `withdrawStake`: record cleared before the call out, all undone if that fails. |
| EntryPoints.EntryPoint.WithdrawTo | deployments/localhost/EntryPoint.json:1331 | `withdrawTo`: deposit reduced before the call out, all undone if that fails. |
| EntryPoints.EntryPoint.IncrementNonce | deployments/localhost/EntryPoint.json:1331 | `incrementNonce`. |
| EntryPoints.EntryPoint.ValidateAndUpdateNonce | deployments/localhost/EntryPoint.json:1331 | `_validateAndUpdateNonce`: succeeds on the counter of the nonce's key and moves it. |
| EntryPoints.EntryPoint.CallOut | deployments/localhost/EntryPoint.json:1331 | A call to foreign code runs its calls in order and undoes them when it reverts. |
| EntryPoints.EntryPoint.ValidateAccountPrepayment | deployments/localhost/EntryPoint.json:1331 | `_validateAccountPrepayment`, errors included. |
| EntryPoints.EntryPoint.ValidatePaymasterPrepayment | deployments/localhost/EntryPoint.json:1331 | `_validatePaymasterPrepayment`, errors included. |
| EntryPoints.EntryPoint.ValidatePrepayment | deployments/localhost/EntryPoint.json:1331 | `_validatePrepayment`, errors included. |
| EntryPoints.EntryPoint.HandlePostOp | deployments/localhost/EntryPoint.json:1331 | `_handlePostOp` in its three modes. |
| EntryPoints.EntryPoint.InnerHandleOp | deployments/localhost/EntryPoint.json:1331 | `innerHandleOp`. |
| EntryPoints.EntryPoint.ExecuteUserOp | deployments/localhost/EntryPoint.json:1331 | `_executeUserOp`: the inner call is undone on a revert and the operation settled outside. |
| EntryPoints.EntryPoint.Compensate | deployments/localhost/EntryPoint.json:1331 | `_compensate`. |
| EntryPoints.EntryPoint.ValidateLoop | deployments/localhost/EntryPoint.json:1331 | The first loop computes the validation of the whole list. |
| EntryPoints.EntryPoint.ExecuteLoop | deployments/localhost/EntryPoint.json:1331 | The second loop computes the execution of the whole list. |
| EntryPoints.EntryPoint.HandleOps | deployments/localhost/EntryPoint.json:1331 | `handleOps` with its reentrancy guard. |
| EntryPoints.EntryPoint.HandleAggregatedOps | deployments/localhost/EntryPoint.json:1331 | `handleAggregatedOps` with its reentrancy guard. |
| EntryPoints.EntryPoint.SignatureLoop | deployments/localhost/EntryPoint.json:1331 | The aggregator checks at the start of `handleAggregatedOps`. |
| EntryPoints.EntryPoint.GroupValidateLoop | deployments/localhost/EntryPoint.json:1331 | The nested validation loops. |
| EntryPoints.EntryPoint.GroupExecuteLoop | deployments/localhost/EntryPoint.json:1331 | The nested execution loops with the running operation index. |
| ModuleRing.RingUnique | contracts/smart-account/base/ModuleManager.sol:18 | The mapping determines the list of modules. |
| ModuleRing.EnableIsPrepend | contracts/smart-account/base/ModuleManager.sol:210-221 | `_enableModule` succeeds if and only if the module is proper and new, and prepends it to the ring. |
| ModuleRing.DisableIsRemove | contracts/smart-account/base/ModuleManager.sol:243-259 | `_disableModule` succeeds if and only if the module is listed right after `prevModule`, and removes exactly it. |
| ModuleRing.UniquePrevious | contracts/smart-account/base/ModuleManager.sol:243-259 | Each enabled module has exactly one `prevModule` with which it can be disabled. |
| ModuleRing.StartIsSingleton | contracts/smart-account/base/ModuleManager.sol:290-298 | The first module makes a ring of one if and only if the mapping held no other entries. |
| ModuleRing.GuardsAreMembership | contracts/smart-account/base/ModuleManager.sol:200-202 | `isModuleEnabled` is membership; the validation guard admits the members and the sentinel. |
| ModuleRing.EntriesWritten | contracts/smart-account/base/ModuleManager.sol:210-298 | On any mapping: when enabling, disabling and the first module succeed, and every entry afterwards. |
| ModuleRing.PageIsSlice | contracts/smart-account/base/ModuleManager.sol:56-81 | A page holds the next min(pageSize, remaining) modules in order, and `next` is the stop right after them. |
| ModuleRing.PageOutside | contracts/smart-account/base/ModuleManager.sol:56-81 | A page after an address outside the ring is empty. |
| ModuleRing.PagesRebuild | contracts/smart-account/base/ModuleManager.sol:56-81 | Paging on from the last module returned, with positive sizes, rebuilds the list. |
| ModuleRing.NextIsSkipped | contracts/smart-account/base/ModuleManager.sol:56-81 | Paging on from `next` skips exactly `next` when it is a module. |
| SmartAccountSpec.CallRefinesList | contracts/smart-account/SmartAccount.sol:164-190 | Every call on an initialised account, by anyone and with re-entering set-up contracts, acts on the mapping as on a duplicate-free list. |
| SmartAccountSpec.OutsideIsIdle | contracts/smart-account/SmartAccount.sol:100-105 | While `init` runs its set-up contract, calls from outside, nested `init` included, change nothing. |
| SmartAccountSpec.InitialisedAtMostOnce | contracts/smart-account/SmartAccount.sol:95-106 | In every run from a fresh proxy, whoever calls and however calls nest, at most one `init` succeeds, and after it the handler is never zero. |
| SmartAccountSpec.HandlerStays | contracts/smart-account/base/FallbackManager.sol:65-78 | Once the handler is set no call clears it and no `init` succeeds. |
| SmartAccountSpec.InitStoresHandler | contracts/smart-account/SmartAccount.sol:104 | A successful `init` leaves its argument as the handler unless its set-up call sets another. |
| SmartAccountSpec.LastHandlerIsStored | contracts/smart-account/base/FallbackManager.sol:65-78 | In every run the handler is the argument of the last handler-setting call that took effect, those of `init` included. |
| SmartAccountSpec.FailedInitIsIdle | contracts/smart-account/SmartAccount.sol:95-106 | An `init` whose guards or set-up fail leaves no trace. |
| SmartAccountSpec.GuardedCalls | contracts/smart-account/SmartAccount.sol:388-391 | On any account only the entry point and the account itself get anything done apart from `init`, and what enabling, disabling and setting the handler change. |
| SmartAccountSpec.SetupActs | contracts/smart-account/SmartAccount.sol:174-180 | `setupAndEnableModule` keeps all that its set-up call did together with the enabling, or nothing. |
| SmartAccountSpec.InitLeavesRing | contracts/smart-account/base/ModuleManager.sol:281-299 | For every set-up script, an `init` that goes through leaves a ring if and only if the set-up call left no entries but the sentinel's and that of the module it returned; the ring is then that one module. |
| SmartAccountSpec.RingStandsAfterInit | contracts/smart-account/SmartAccount.sol:95-106 | In every run whose successful `init` meets that condition, at whatever depth, the ring stands from then on and the sentinel's entry is never zero again. |
| SmartAccountSpec.InitStartsRing | contracts/smart-account/SmartAccount.sol:95-106 | On a blank account, if the set-up call comes back as the account itself only to enable the module it returns, `init` fails without a trace or starts a ring of that module. |
| SmartAccountSpec.SelfSetupStartsRing | contracts/smart-account/base/ModuleManager.sol:301-323 | `init` may set up its module through `setupAndEnableModule` of the account itself. |
| SmartAccountSpec.ReceivedIsModest | contracts/smart-account/base/ModuleManager.sol:301-323 | The set-up calls that a fresh account can make are such set-ups: foreign code is not trusted, and the account as its own set-up contract passes on the module it enabled. |
| SmartAccountSpec.AdmissibleStartsClean | contracts/smart-account/SmartAccount.sol:95-106 | Runs in which trusted calls reach the uninitialised account only through such set-ups meet the condition of `RingStandsAfterInit`. |
| SmartAccountSpec.ImplementationNeverInitialised | contracts/smart-account/SmartAccount.sol:65-71 | No `init` ever succeeds on the implementation contract, whose ring stands as well. |
| SmartAccounts.SmartAccount.Proxy | contracts/smart-account/base/ModuleManager.sol:18 | The storage of a fresh proxy. |
| SmartAccounts.SmartAccount.Implementation | contracts/smart-account/SmartAccount.sol:65-71 | The implementation's sentinel points at itself. |
| SmartAccounts.SmartAccount.Init | contracts/smart-account/SmartAccount.sol:95-106 | `init` with its guard, the handler set before the set-up call, and the revert of all of it. |
| SmartAccounts.SmartAccount.RunSetup | contracts/smart-account/base/ModuleManager.sol:301-323 | `_setupModule`: the set-up contract's calls run in order; a zero address or a revert fails. |
| SmartAccounts.SmartAccount.EnableModule | contracts/smart-account/SmartAccount.sol:164-167 | `enableModule` for the entry point or the account itself. |
| SmartAccounts.SmartAccount.SetupAndEnableModule | contracts/smart-account/SmartAccount.sol:174-180 | `setupAndEnableModule` for the same callers. |
| SmartAccounts.SmartAccount.DisableModule | contracts/smart-account/SmartAccount.sol:309-312 | `disableModule` for the same callers. |
| SmartAccounts.SmartAccount.SetFallbackHandler | contracts/smart-account/base/FallbackManager.sol:65-78 | `setFallbackHandler` for the same callers; a zero handler is refused. |
| SmartAccounts.SmartAccount.ValidatesWith | contracts/smart-account/SmartAccount.sol:136-156 | `validateUserOp` serves only the entry point and dispatches only to a listed module or the sentinel. |
| SmartAccounts.SmartAccount.GetModulesPaginated | contracts/smart-account/base/ModuleManager.sol:56-81 | The paging loop returns the modules met from the start and the place where it stops. |
| MultiSend.RecordReadBack | contracts/smart-account/libs/MultiSend.sol:43-52 | Reading a printed record gives back operation, address, value, length and data, wherever it lies in memory. |
| MultiSend.PrintedLayout | src/utils/multisend.ts:8-15 | The printed bytes are operation, address, value, length and data, at their offsets. |
| MultiSend.LoopReachesEnd | contracts/smart-account/libs/MultiSend.sol:33-66 | Over a printed batch the loop is the replay of its transactions followed by the loop from the end of the batch, for every length less than 53 bytes short of it. |
| MultiSend.LoopReplays | contracts/smart-account/libs/MultiSend.sol:33-66 | The loop replays a printed batch for every length from 52 bytes short of it to 32 bytes past it. |
| MultiSend.PrintThenParse | src/utils/multisend.ts:8-19 | Running `multiSend` on an encoded batch makes exactly its calls, in order and with their fields, or none; up to 32 trailing bytes are ignored. |
| MultiSend.TrailingIgnored | contracts/smart-account/libs/MultiSend.sol:33-38 | Bytes after a batch that goes through, whatever they are, change nothing if and only if there are at most 32 of them. |
| MultiSend.TrailingZeros | contracts/smart-account/libs/MultiSend.sol:33-38 | For instance, 33 to 117 zeros after a batch are one more call to address zero. |
| MultiSend.ReplayIsAllOrNothing | contracts/smart-account/libs/MultiSend.sol:54-63 | A batch is committed if and only if every operation is 0 or 1 and every call succeeds after those before it; what is committed is all its calls, in order and with their fields. |
| MultiSend.ReplaySucceeds | contracts/smart-account/libs/MultiSend.sol:54-63 | If every call succeeds, a batch of calls and delegatecalls is committed in full. |
| MultiSend.CallOnlyAgrees | contracts/smart-account/libs/MultiSendCallOnly.sol:23-57 | On any memory the call-only loop commits what `MultiSend` commits if that has no delegatecall, and nothing otherwise. |
| MultiSend.CallOnlyOnPrinted | contracts/smart-account/libs/MultiSendCallOnly.sol:23-57 | Of a printed batch, with up to 32 bytes after it, the call-only contract executes all or, if any operation is non-zero, nothing. |
| MultiSend.Execute | contracts/smart-account/libs/MultiSend.sol:26-68 | The cursor loop, refused by `MultiSend` unless reached by delegatecall. |
| BundleQueue.TakenOps | src/AASigner.ts:170-176 | A bundle takes exactly the oldest operation of every sender. |
| BundleQueue.TakenOnce | src/AASigner.ts:170-176 | A bundle holds at most one operation per sender. |
| BundleQueue.TotalAfterTake | src/AASigner.ts:170-176 | Operations are neither lost nor doubled when a bundle is taken. |
| BundleQueue.StepKeeps | src/AASigner.ts:143-195 | Each atomic step keeps the flag, the order per sender, the bundles and the size. |
| BundleQueue.BundlingIsSafe | src/AASigner.ts:97-195 | Under every interleaving at most one send is in progress and the flag is up exactly then; per sender the queue is first in, first out; bundles have one operation per sender. |
| BundleQueue.QueueSizeCounts | src/AASigner.ts:110 | `queueSize` counts the queued operations in every run if and only if it starts at 0. |
| BundleQueue.TickSendsWhen | src/AASigner.ts:155-168 | Exactly when a tick starts a send: none in progress, five seconds since the last enqueue, and three operations, or any at all with `queueSize` left unset. |
| BundleQueue.SendsAfterIdle | src/AASigner.ts:155-160 | In every run a send starts only when the last enqueue is five seconds past, and the queue's books hold all that was enqueued. |
| BundleQueue.TickTakesOldest | src/AASigner.ts:168-180 | A tick either takes the oldest operation of every sender, in the senders' order, and raises the flag, or changes no queue. |
| BundleQueue.EnqueueAppends | src/AASigner.ts:104-111 | An enqueue goes to the end of its sender's queue, a new sender comes last, and the moment is noted. |
| BundleQueue.FinishReleases | src/AASigner.ts:192-194 | A send that ends releases the flag and touches no queue. |
| BundleSenders.QueueSender.constructor | src/AASigner.ts:97-113 | `queueSize` and `lastQueueUpdate` start unset. |
| BundleSenders.QueueSender.Add | src/AASigner.ts:104-111 | Enqueueing one operation. |
| BundleSenders.QueueSender.TakeBundle | src/AASigner.ts:168-176 | The loop of shifts over all senders. |
| BundleSenders.Bundler.BeginSend | src/AASigner.ts:151-180 | A send up to its first await; the flag stays up only if a bundle is on its way. |
| BundleSenders.Bundler.EndSend | src/AASigner.ts:192-194 | The flag is released when a send ends, however it ends. |
| Deployment.HandWrittenRlp | contracts/smart-account/deployer/Create3.sol:119-129 | `d6 94 proxy 01` is the RLP of [proxy, 1]. |
| Deployment.PredictionsAgree | contracts/smart-account/factory/SmartAccountFactory.sol:45-66 | The predicted account, written out from the ABI-encoded `init` call, is the CREATE2 address of the deployment, and the Create3 target the CREATE address of its child at nonce 1, for any hash. |
| Deployment.PerformGrows | contracts/smart-account/factory/SmartAccountFactory.sol:73-124 | A deployment, with anything deployed inside it, changes no code there was and reports only predicted addresses that were free and now hold what was deployed, each once. |
| Deployment.DeployedAsPredicted | contracts/smart-account/factory/SmartAccountFactory.sol:73-124 | In every run, among any other creations, each success lies where predicted and still holds the code it was given. |
| Deployment.DeployedCodeStays | contracts/smart-account/deployer/Create3.sol:63-90 | A deployed account holds the proxy's code, and a `create3` target what its constructor left, at the end of any later run. |
| Deployment.DeployedOnce | contracts/smart-account/factory/SmartAccountFactory.sol:73-124 | In every run no two successes have the same inputs, or the same deployer and salt. |
| Deployment.RepeatFails | contracts/smart-account/deployer/Create3.sol:63-90 | After any run a deployment with the inputs, or the salt, of an earlier success changes nothing, whatever the creation code. |
| Deployment.SucceedsWhen | contracts/smart-account/deployer/Create3.sol:63-90 | Exactly when a deployment goes through. |
| Deployment.AccountDeploys | contracts/smart-account/factory/SmartAccountFactory.sol:73-124 | An account's deployment keeps what its `init` call deployed, or nothing at all. |
| Deployment.Create3Deploys | contracts/smart-account/deployer/Create3.sol:63-90 | A `create3` that goes through leaves the child, the code its constructor left and what was deployed inside. |
| Deployment.SharedTargetIsCollision | contracts/smart-account/deployer/Create3.sol:92-129 | Two salts share a target only if the hash collides on the two inputs of their proxies or on the two inputs of their targets. |
| Deployment.SharedAccountIsCollision | contracts/smart-account/factory/SmartAccountFactory.sol:45-66 | Two accounts that differ in set-up contract, set-up data or index share an address only if the hash collides on their own CREATE2 inputs, salt inputs or `init` calls. |
| Deployment.InitCallLayout | contracts/smart-account/factory/SmartAccountFactory.sol:191-200 | The words of the `init` call: selector, handler, set-up contract, and the data with offset, length and padding. |
| Deployment.InitCallInjective | contracts/smart-account/factory/SmartAccountFactory.sol:191-200 | Different set-up contracts or data make different `init` calls. |
| DeploymentChain.World.DeployCounterFactualAccount | contracts/smart-account/factory/SmartAccountFactory.sol:73-124 | create2, then `init`, then the event; all undone if `init` fails. |
| DeploymentChain.World.Create3 | contracts/smart-account/deployer/Create3.sol:63-90 | The checks, the child proxy, its call and the final check, all undone on failure. |

## Left out

- `simulateHandleOp`, `simulateValidation`, `getSenderAddress`, `_validateSenderAndPaymaster`: they always revert.
- Calls to `innerHandleOp` by anyone but the EntryPoint: refused by its first check.
- Account creation beyond its four outcomes: the factory's result and the presence of code are part of the script.
- Exact gas costs: `gasleft()` readings are arbitrary; running out of gas outside the inner call is a revert like any other.
- The ether of accounts other than the EntryPoint: a payable call by them is possible as long as the EntryPoint's balance fits 256 bits.
- Event contents beyond the log described above, revert reason strings and operation indices in errors.
- Signatures, the encoding of all calls but `init`, and the authorisation modules: their answers are words in scripts.
- `EntryPointProgress.StillBundle`: only operations settled inside their inner call, and foreign code that stays out of the EntryPoint; otherwise the other results apply.
- `SmartAccountSpec.RingStandsAfterInit`: a ring only after an `init` whose set-up call leaves the mapping clean; `InitLeavesRing` shows that no other leaves one.
- `SmartAccountSpec.ReceivedIsModest`: that no other set-up call is possible is not derived from the EntryPoint; it executes no operation of an account without modules.
- Delegatecalls from modules and foreign implementations installed by `updateImplementation`, which may write any storage.
- `execTransactionFromModule` and its batch form, `execute` and `executeBatch`: calls without state of their own.
- MultiSend payload lengths of 2^64 bytes or more: they run out of gas on the memory they ask for, so the loop reverts.
- JavaScript's ordering of integer-like keys: senders are hexadecimal addresses, which keep insertion order.
- What the chain does with a bundle that was sent: operations of a failed send are not queued again.
- Self-destruct and address reuse, `deployAccount` (plain CREATE, no prediction), and `Stakeable`.
- The deployed bytecode of the proxies: non-empty byte strings.
