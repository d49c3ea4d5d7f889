# UDTswap verification

A Dafny model of UDTswap, an automated market maker made of three CKB scripts, with proofs of what
those scripts promise. The model has four layers.

1. **Numbers.** `Limbs` and `Bignum` model the 1024-bit integers of `bn.c` as arrays of 32 words of 32 bits,
   written in place by the same loops. Every routine is proved against integer arithmetic modulo 2^1024; division
   is proved to be the floor of the quotient, also when the result is written over an operand.
2. **One pool.** `AmountChecks` runs `swap`, `add_liquidity` and `remove_liquidity` on those bignums and proves the
   verdict to be that of the unbounded-integer formulas in `PoolMath`. `PoolRuns` takes the formulas to runs of
   steps: value per share never falls, swaps grow the product, a funded pool never empties. `Client` relates the
   quotes of `test/utils.js` to the same formulas.
3. **Scripts on a transaction.** `Transaction` holds cells and groups of cells, `Syscalls` the system calls as lookups
   on them. `PoolScript` and `PoolMain` are the pool's type script, `TokenScript` the liquidity token's, `LockScript` the
   pool's lock; what each of them asks for is in `PoolRules`, `TokenRules` and `LockRules`. `AcceptedCells` and
   `TokenTransfers` tell what acceptance means in the cells' own bytes and numbers.
   `PoolAgreement` says what all pool scripts of one transaction guarantee together, `Custody` what lock and pool
   scripts guarantee together, and `SeparateRuns` that it does not matter that each script runs on its own.
   `HonestTransactions`, `HonestTokens` and `HonestSwaps` say exactly which transactions built as a client builds them
   are accepted, of one pool and of any number of pools; `UncoveredRemovals` adds withdrawals not paid for in tokens.
   `Ledger`, `PoolLedger` and `ChainRuns` follow one pool and its token over whole chains of accepted transactions, and
   `Solvency` follows all pools under one lock.
4. **Encodings.** `ByteOrder`, `MoleculeLayout`, `MoleculeReader`, `ScriptLayout` and `MoleculeBuilder` model the
   `table` and `dynvec` layouts of Nervos RFC 0008: the verifiers accept exactly the encodings, what is built reads
   back, and a script's bytes are determined by its fields, which stand where the scripts' fixed offsets look.

Code that changes state step by step is a method with the loops of the original, specified by a function or a
predicate; what is promised is then proved of that function or predicate. `x == y` between two truth values in an
`ensures` means if and only if.

## Where code and documentation differ

The exact-output formula at `README.md:183` reads `... / (output reserve-output amount) * 997 + 1`. The code divides by
`(output reserve - output amount) * 997` (`UDTswap_scripts/UDTswap_udt_based.c:218-229`), and so does the model.

## Assumptions

* A hash stands for one script. This is stated as a precondition where it is needed (`HashesIdentify` for the
  types of one transaction; `Named` for a pool, its token and its lock), never for all scripts at once. The hash
  type of a script, which no UDTswap script compares, is part of its identity and not a field of its own.
* Out points are not used twice (part of `CanPost`). That two pools cannot share a type follows from it, since a pool's
  args are its creating transaction's first input.
* A load into a 16-byte buffer that brings fewer bytes leaves the rest as it was. What was there is arbitrary, and
  other for each script, each index it scans and each of its buffers (`Consts.scanned`, `Consts.created`).
  `PoolAgreement` speaks of scripts that found the same; `SeparateRuns` drops that where the asset cells of pool triples
  are at least 16 bytes long (`WholeTriples`).

`HonestTransactions.SwapTxAccepted`, `DepositTxAccepted`, `RemovalTxAccepted` and `CreationAccepted` name transactions
that are accepted, so what is said of accepted transactions is not said of none.

## Findings

* The capacity of a Molecule builder doubles in 32 bits. The loop that grows it ends exactly when at most 2^31 bytes
  are needed (`GrowthStops`, `GrowDataWithin`). So the `dynvec` round trip holds up to there and not up to 2^32:
  `LongListStalls` gives the push that never ends for every longer list, and `LongListExists` such a list.
* Acceptance does not mean that a withdrawal is paid for in tokens. The sum of output and burned liquidity wraps at
  2^128, and `UncoveredRemovalAccepted` shows that every valid withdrawal of two units or more is accepted by all three
  scripts with one token in and one output that has wrapped. Tokens and liquidity then stay congruent modulo 2^128
  but are no longer equal; `EqualIffCovered` gives the exact condition, which is whether the token inputs cover the
  fall of liquidity.
* The lock script's matching loop compares its result with a code that is never returned, so it ends only by
  unlocking (`MatchTriples`, `MoreTurnsDoNotHelp`).
* Creating a pool loads the second amount with a length left over from loading the first. If the first asset is CKB
  that length is 8, and the upper half of the amount is whatever the buffer held before: `CreationAccepted` gives the
  exact condition.
* Creating a pool loads the first amount, unless it is CKB, with a length of 48 into a buffer of 16 bytes. Bytes are
  written behind the buffer exactly if the first asset is not CKB and output 1 has more than 16 bytes of data, which
  whoever builds the transaction decides (`CheckNewAmounts`, `Spills`).

## Model

| member | source | states |
|---|---|---|
| `Limbs.ValSum` | UDTswap_scripts/bn.c:82-97 | adding limb by limb with a carry is addition modulo 2^(32 n), and the carry out is its quotient |
| `Limbs.ValDiff` | UDTswap_scripts/bn.c:100-119 | subtracting limb by limb with a borrow is subtraction modulo 2^(32 n) |
| `Limbs.ValOr` | UDTswap_scripts/bn.c:199-210 | or on limbs is or on the numbers they spell, bit by bit |
| `Limbs.ValShl` | UDTswap_scripts/bn.c:285-295 | the one-bit left shift doubles, losing exactly the top bit |
| `Limbs.ValShr` | UDTswap_scripts/bn.c:298-308 | the one-bit right shift halves, rounding down |
| `Limbs.ValShlWords` | UDTswap_scripts/bn.c:266-282 | shifting by words scales by a power of 2^32 modulo 2^1024 |
| `Bignum.BignumInit` | UDTswap_scripts/bn.c:11-20 | the value becomes 0 |
| `Bignum.BignumFromUint64` | UDTswap_scripts/bn.c:23-50 | the value becomes the given 64-bit number |
| `Bignum.BignumAdd` | UDTswap_scripts/bn.c:82-97 | the sum modulo 2^1024, whichever operands share an array |
| `Bignum.BignumSub` | UDTswap_scripts/bn.c:100-119 | the difference modulo 2^1024, whichever operands share an array |
| `Bignum.BignumOr` | UDTswap_scripts/bn.c:199-210 | the bitwise or, whichever operands share an array |
| `Bignum.BignumCmp` | UDTswap_scripts/bn.c:213-234 | the order of the two values |
| `Bignum.BignumIsZero` | UDTswap_scripts/bn.c:237-251 | 1 exactly for value 0 |
| `Bignum.BignumAssign` | UDTswap_scripts/bn.c:254-264 | copies the value |
| `Bignum.LShiftWord` | UDTswap_scripts/bn.c:266-282 | moves all limbs up by any number of whole words, in place, modulo 2^1024 |
| `Bignum.LShiftOneBit` | UDTswap_scripts/bn.c:285-295 | the limbs shifted by one bit, in place |
| `Bignum.RShiftOneBit` | UDTswap_scripts/bn.c:298-308 | half the value, rounded down, in place |
| `Bignum.BignumMul` | UDTswap_scripts/bn.c:122-151 | the product modulo 2^1024 for all operands, exact whenever it fits; the two factors may be one array |
| `Bignum.ScaleUp` | UDTswap_scripts/bn.c:164-179 | first loop of division: divisor and bit doubled together until the divisor exceeds the dividend or its top bit is set; terminates |
| `Bignum.ShiftSubtract` | UDTswap_scripts/bn.c:185-197 | second loop of division: dividend = quotient * divisor + remainder is kept while the scaled divisor is halved; terminates |
| `Bignum.BignumDiv` | UDTswap_scripts/bn.c:154-197 | the floor of the quotient for every dividend and every positive divisor, also when the result overwrites either |
| `Numbers.BitOrDisjoint` | UDTswap_scripts/bn.c:189-191 | or on numbers without a common bit is addition |
| `AmountChecks.Uint128ToBignum` | UDTswap_scripts/UDTswap_udt_based.c:7-18 | the bignum has the value of the 128-bit number |
| `AmountChecks.BignumToUint128` | UDTswap_scripts/UDTswap_udt_based.c:20-27 | the value modulo 2^128, so the two conversions invert each other on 128-bit numbers |
| `AmountChecks.Swap` | UDTswap_scripts/UDTswap_udt_based.c:176-247 | for all 128-bit inputs the verdict is that of the integer formulas: no intermediate wraps at 2^1024 and no live temporary is overwritten |
| `AmountChecks.AddLiquidity` | UDTswap_scripts/UDTswap_udt_based.c:41-98 | the same for deposits: second amount rounded up, liquidity rounded down |
| `AmountChecks.RemoveLiquidity` | UDTswap_scripts/UDTswap_udt_based.c:112-164 | the same for withdrawals: both payouts rounded down |
| `AmountChecks.CostFits` | UDTswap_scripts/UDTswap_udt_based.c:216-230 | every intermediate of the exact-output test stays below 2^1024, and the divisor is 0 only when all of the reserve is taken |
| `AmountChecks.GainFits` | UDTswap_scripts/UDTswap_udt_based.c:236-245 | the same for the exact-input test |
| `PoolMath.GrantedIffCovered` | UDTswap_scripts/UDTswap_udt_based.c:236-245 | the exact-input test grants an output if and only if the fee-adjusted inequality, cleared of division, holds |
| `PoolMath.CostIffCovered` | UDTswap_scripts/UDTswap_udt_based.c:216-233 | the exact-output test asks for an input that satisfies the same inequality and exceeds the least such by at most one |
| `PoolMath.SwapExactly` | UDTswap_scripts/UDTswap_udt_based.c:216-245 | the swap formulas hold exactly if the input is one more than the most that is too little, or the output is the most that is paid for; told by inequalities, without division |
| `PoolMath.AddExactly` | UDTswap_scripts/UDTswap_udt_based.c:80-95 | the deposit formulas hold exactly if the second amount is the least strictly above its share and the minted liquidity the most within; without division |
| `PoolMath.RemoveExactly` | UDTswap_scripts/UDTswap_udt_based.c:147-161 | the withdrawal formulas hold exactly if both payouts are the most within their shares; without division |
| `PoolRuns.SwapStepExactly` | UDTswap_scripts/UDTswap_udt_based.c:1014-1050 | with liquidity kept, a pool's step is valid exactly if it trades one asset for the other by one of the two inequalities, in either direction |
| `PoolRuns.FirstDepositExactly` | UDTswap_scripts/UDTswap_udt_based.c:1061-1081 | from no liquidity, exactly if both reserves rise, the first to 1000 or more, and the liquidity becomes the first reserve |
| `PoolRuns.DepositExactly` | UDTswap_scripts/UDTswap_udt_based.c:1061-1095 | with liquidity growing, exactly if 1000 or more is deposited and both amounts are rounded against the depositor |
| `PoolRuns.WithdrawalExactly` | UDTswap_scripts/UDTswap_udt_based.c:1096-1127 | with liquidity falling, exactly if something but not all is left of both assets and both payouts are rounded down |
| `PoolRuns.ExactOutputIsAccepted` | UDTswap_scripts/UDTswap_udt_based.c:216-233 | buying any output below the reserve at its price, written out, is a valid swap |
| `PoolRuns.ExactOutputIsAcceptedBack` | UDTswap_scripts/UDTswap_udt_based.c:216-233 | the same for an output of the first asset |
| `PoolRuns.SwapKeepsFeeAdjustedProduct` | UDTswap_scripts/UDTswap_udt_based.c:218-246 | a swap passed by either test keeps (1000 r + 997 in)(s - out) >= 1000 r s, so the product of reserves grows strictly |
| `PoolRuns.RequiredInputBuysOutput` | UDTswap_scripts/UDTswap_udt_based.c:218-245 | paying the computed input grants at least the output it was computed for |
| `PoolRuns.GrantedOutputCosts` | UDTswap_scripts/UDTswap_udt_based.c:218-245 | the granted output is below the reserve and costs at most one more than the input paid |
| `PoolRuns.NoCheaperInput` | UDTswap_scripts/UDTswap_udt_based.c:218-245 | no input below the computed one minus one buys the output |
| `PoolRuns.OneLessSuffices` | UDTswap_scripts/UDTswap_udt_based.c:226-229 | one less suffices exactly when the price divides evenly |
| `PoolRuns.AddKeepsShares` | UDTswap_scripts/UDTswap_udt_based.c:80-95 | a deposit dilutes neither asset per unit of liquidity |
| `PoolRuns.RemoveKeepsShares` | UDTswap_scripts/UDTswap_udt_based.c:147-161 | a withdrawal dilutes neither asset per unit of liquidity |
| `PoolRuns.DepositThenBurn` | UDTswap_scripts/UDTswap_udt_based.c:80-161 | depositing and burning exactly what was minted returns at most the first amount and less than the second |
| `PoolRuns.StepNoWorse` | UDTswap_scripts/UDTswap_udt_based.c:1014-1127 | every step of a funded pool keeps r1 r2 / liquidity^2 from falling |
| `PoolRuns.StepFunds` | UDTswap_scripts/UDTswap_udt_based.c:1001-1127 | a step leads from an empty or funded pool to a funded one |
| `PoolRuns.RunEmptyOrFunded` | UDTswap_scripts/UDTswap_udt_based.c:999-1127 | on every run from an empty pool each later state is funded |
| `PoolRuns.RunNoWorse` | UDTswap_scripts/UDTswap_udt_based.c:1014-1127 | on every run, between any two states, value per share does not fall |
| `PoolRuns.PoolNeverLosesValue` | UDTswap_scripts/UDTswap_udt_based.c:1014-1127 | r1 r2 L0^2 >= r1_0 r2_0 L^2 at every point after the first deposit |
| `PoolRuns.SwapRunGrows` | UDTswap_scripts/UDTswap_udt_based.c:1025-1050 | every non-empty run of swaps makes the product of the reserves larger |
| `PoolRuns.NoFreeRoundTrip` | UDTswap_scripts/UDTswap_udt_based.c:1025-1050 | if such a run leaves one reserve no higher, it leaves the other strictly higher |
| `ByteOrder.GetUint128` | UDTswap_scripts/udtswap_common.h:86-93 | the little-endian number in 16 bytes, with no overflow on the way |
| `ByteOrder.LeOfToLe` | UDTswap_scripts/udtswap_common.h:86-93 | reading back a number written in little-endian bytes gives that number |
| `Client.QuotedSwapIsAccepted` | test/utils.js:105-111 | a quoted swap of a positive input, if it grants anything, passes the on-chain test, in both directions |
| `Client.QuotedDepositIsAccepted` | test/utils.js:120-132 | a quoted deposit above the minimum, if it mints anything, passes the on-chain test |
| `Client.QuotedWithdrawalIsAccepted` | test/utils.js:141-152 | a quoted withdrawal of part of the liquidity, if it pays both assets, passes the on-chain test |
| `Client.ChangeEndianness` | test/utils.js:56-64 | the string with its character pairs after "0x" in reverse order |
| `Client.ToUDTData` | test/utils.js:50-54 | the data string of a number: reversed pairs of its hexadecimal digits, padded |
| `Client.CellDataReadsBack` | test/utils.js:50-73 | reading the amount in that data gives the number modulo 2^128, for every number |
| `Client.CellDataIsAmount` | test/utils.js:50-73 | for a number below 2^128 that data is exactly its 16 bytes, least significant first |
| `Transaction.GroupOfOne` | UDTswap_scripts/UDTswap_udt_based.c:949-970 | a type group of size one means exactly one cell carries the type |
| `PoolScript.CheckScriptHash` | UDTswap_scripts/UDTswap_udt_based.c:324-338 | succeeds exactly if the cell exists and its hash is the one given |
| `PoolScript.CheckLocks` | UDTswap_scripts/UDTswap_udt_based.c:369-424 | succeeds exactly if six cells stand under one lock with the pool lock's code and 64 bytes of args |
| `PoolScript.CheckAsset` | UDTswap_scripts/UDTswap_udt_based.c:455-475 | succeeds exactly if the cell is untyped for CKB, or else of the asset's type |
| `PoolScript.CheckAmounts` | UDTswap_scripts/UDTswap_udt_based.c:510-555 | succeeds exactly if the recorded reserve is the locked capacity or amount, before and after |
| `PoolScript.CheckHead` | UDTswap_scripts/UDTswap_udt_based.c:608-643 | succeeds exactly if input and output head carry one type, with the pool's code and 44 bytes of args |
| `PoolScript.DefaultCheck` | UDTswap_scripts/UDTswap_udt_based.c:358-669 | succeeds exactly on the own pool's well-formed triple, gives the other-pool code exactly on another pool's, and reads both states of the pool |
| `PoolScript.CheckFee` | UDTswap_scripts/UDTswap_udt_based.c:290-322 | succeeds exactly if the cell is untyped, under the fee lock, with capacity 6100000000 times the count |
| `PoolScript.CheckLiquidityScript` | UDTswap_scripts/UDTswap_udt_based.c:873-930 | succeeds exactly if the cell's type has the token's code and as args the pool's lock hash followed by the pool's args |
| `PoolScript.CheckTxInput` | UDTswap_scripts/UDTswap_udt_based.c:249-288 | succeeds exactly if the running script's args, taken from its verified bytes, are the first input |
| `PoolScript.CheckNewAmounts` | UDTswap_scripts/UDTswap_udt_based.c:801-856 | succeeds exactly if a new pool records and locks the default reserves and no liquidity; writes behind the 16-byte buffer exactly if the first asset is not CKB and its cell has more than 16 bytes |
| `PoolScript.CreateCheck` | UDTswap_scripts/UDTswap_udt_based.c:684-863 | succeeds exactly on the creation of the running script's pool, and says when it has written behind a buffer |
| `PoolRules.LessIsFirstDifference` | UDTswap_scripts/UDTswap_udt_based.c:745-747 | the order of asset hashes is decided by the first byte in which they differ |
| `PoolRules.CreatedPoolAssets` | UDTswap_scripts/UDTswap_udt_based.c:745-749 | the assets of a new pool differ, and only the first can be CKB |
| `PoolMain.CheckSwap` | UDTswap_scripts/UDTswap_udt_based.c:1014-1050 | succeeds exactly on a swap step, in either direction |
| `PoolMain.CheckAddition` | UDTswap_scripts/UDTswap_udt_based.c:1061-1095 | succeeds exactly on a first or later deposit with the token's cell at output 4 |
| `PoolMain.CheckRemoval` | UDTswap_scripts/UDTswap_udt_based.c:1096-1127 | succeeds exactly on a withdrawal with the token's cell at input 3 |
| `PoolMain.CheckStep` | UDTswap_scripts/UDTswap_udt_based.c:999-1127 | succeeds exactly on a valid step: reserves above the defaults, and a liquidity change only at triple 0 |
| `PoolMain.ScanTriples` | UDTswap_scripts/UDTswap_udt_based.c:973-1135 | the scan terminates on every transaction, and ends where its specification on the list of leading triples ends |
| `PoolMain.Run` | UDTswap_scripts/UDTswap_udt_based.c:941-1144 | the pool script terminates, and succeeds exactly on the transactions that its acceptance predicate describes |
| `PoolRules.LeadingAt` | UDTswap_scripts/UDTswap_udt_based.c:977-998 | the leading triples are those at 0, 3, 6 and so on, and the next one is no pool's |
| `PoolAgreement.AcceptedUpdate` | UDTswap_scripts/UDTswap_udt_based.c:948-1135 | a script that accepts other than by creation has its pool at exactly one leading triple, in inputs and in outputs, with a valid step |
| `PoolAgreement.TripleShows` | UDTswap_scripts/UDTswap_udt_based.c:505-669 | at every leading triple the recorded reserves are the amounts locked in the two cells behind it, before and after |
| `PoolAgreement.SameFeeCell` | UDTswap_scripts/UDTswap_udt_based.c:977-998 | all accepting scripts count the same number of pools, though each skips the others' triples |
| `PoolAgreement.CountsAll` | UDTswap_scripts/UDTswap_udt_based.c:1134-1140 | an accepting script counts all n leading triples, and output 3n is untyped, under the fee lock, with a capacity of exactly 6100000000 n |
| `PoolAgreement.NoCreationBesideUpdate` | UDTswap_scripts/UDTswap_udt_based.c:684-717 | one script's creation and another's update cannot both be accepted |
| `PoolAgreement.Classified` | UDTswap_scripts/UDTswap_udt_based.c:941-1137 | a transaction accepted by all its pool scripts is one creation, one liquidity change, or one or more swaps in the leading triples |
| `PoolAgreement.ShapesExclude` | UDTswap_scripts/UDTswap_udt_based.c:941-1137 | no transaction is two of these |
| `PoolAgreement.AcceptedIffShaped` | UDTswap_scripts/UDTswap_udt_based.c:941-1137 | and conversely: all its pool scripts accept exactly the transactions of these three shapes |
| `TokenScript.SumAmounts` | UDTswap_scripts/UDTswap_liquidity_UDT_udt_based.c:143-167 | succeeds exactly if every amount is 16 bytes and positive and the exact sum fits in 128 bits, and returns that sum |
| `TokenRules.BalancesIsCongruence` | UDTswap_scripts/UDTswap_liquidity_UDT_udt_based.c:87-93 | the three verdicts in wrapping arithmetic all say that tokens and liquidity move by the same amount modulo 2^128 |
| `TokenRules.BalanceIsExact` | UDTswap_scripts/UDTswap_liquidity_UDT_udt_based.c:87-93 | a verdict in favour is exact if and only if the new amount lies between 0 and 2^128 |
| `TokenRules.UncoveredBurn` | UDTswap_scripts/UDTswap_liquidity_UDT_udt_based.c:89-90 | a burn by more than the input balances exactly for one wrapped-around output |
| `TokenScript.CheckOwnerCell` | UDTswap_scripts/UDTswap_liquidity_UDT_udt_based.c:21-62 | with both data sizes it succeeds exactly if input 0 is a pool whose args are those in the token's args |
| `TokenScript.CheckOwnerModeTransfer` | UDTswap_scripts/UDTswap_liquidity_UDT_udt_based.c:21-95 | succeeds exactly if input 0 is the token's pool and the sums balance against its liquidity |
| `TokenScript.Run` | UDTswap_scripts/UDTswap_liquidity_UDT_udt_based.c:104-205 | the token script succeeds exactly on the transactions that its acceptance predicate describes |
| `TokenTransfers.TransferExactly` | UDTswap_scripts/UDTswap_liquidity_UDT_udt_based.c:128-204 | with input 0 under another lock, the token's script accepts if and only if every token cell has 16 bytes and a positive amount, both sums are below 2^128 and the sums are equal; told over the cells |
| `TokenTransfers.OwnerExactly` | UDTswap_scripts/UDTswap_liquidity_UDT_udt_based.c:21-95 | with input 0 under the owner's lock, if and only if the cells are proper, input 0 is the pool that the args name and the sums differ by the change of the recorded liquidity modulo 2^128; told over the cells |
| `TokenTransfers.SplitIsAccepted` | UDTswap_scripts/UDTswap_liquidity_UDT_udt_based.c:195-204 | splitting any cell of tokens in two, with no pool in the transaction, is accepted |
| `LockScript.CheckUdtswapType` | UDTswap_scripts/UDTswap_lock_udt_based.c:14-53 | succeeds exactly on three inputs under the lock, headed by a pool cell, and never returns the code that the caller compares with |
| `LockScript.CountGroup` | UDTswap_scripts/UDTswap_lock_udt_based.c:61-91 | succeeds exactly for a positive multiple of three cells under the lock, and returns the third |
| `LockScript.MatchTriples` | UDTswap_scripts/UDTswap_lock_udt_based.c:93-104 | after any number of turns it has unlocked exactly if that many triples held as many guarded ones as needed, and else runs on |
| `LockScript.Run` | UDTswap_scripts/UDTswap_lock_udt_based.c:61-107 | the lock script unlocks within the given turns exactly if its predicate says so |
| `LockRules.CountedAll` | UDTswap_scripts/UDTswap_lock_udt_based.c:61-104 | the counting argument: guarded triples hold at most the whole group, and all of it only if every cell is in one |
| `LockRules.UnlockedOnlyInTriples` | UDTswap_scripts/UDTswap_lock_udt_based.c:61-104 | if the lock opens, the group is a positive multiple of three and each cell of it lies in a triple at a multiple of three headed by a pool cell |
| `LockRules.UnlockedIffInTriples` | UDTswap_scripts/UDTswap_lock_udt_based.c:61-104 | with turns for all inputs it opens exactly for the non-empty groups of that kind |
| `LockRules.MoreTurnsDoNotHelp` | UDTswap_scripts/UDTswap_lock_udt_based.c:93-104 | a group not unlocked by then is not unlocked by any number of turns |
| `Custody.LockedCellsMoveInSteps` | UDTswap_scripts/UDTswap_lock_udt_based.c:14-104 | where lock and pool scripts accept, a cell under a pool's lock is spent only in a valid step of a pool, and the output at its index is under the same lock |
| `PoolLedger.TokensPassedOn` | UDTswap_scripts/UDTswap_liquidity_UDT_udt_based.c:195-202 | without the pool at input 0, token inputs and outputs are equal |
| `PoolLedger.TokensFollow` | UDTswap_scripts/UDTswap_liquidity_UDT_udt_based.c:73-93 | with the pool at input 0, tokens move as its recorded liquidity does, modulo 2^128 |
| `PoolLedger.ChangeCarriesToken` | UDTswap_scripts/UDTswap_udt_based.c:1069-1116 | liquidity changes only where a cell of the pool's token makes the token's script run |
| `PoolLedger.CreatedPool` | UDTswap_scripts/UDTswap_udt_based.c:684-863 | creation adds one pool cell with the default reserves and no liquidity, and spends the input that the pool's args name |
| `PoolLedger.UpdateEffect` | UDTswap_scripts/UDTswap_udt_based.c:948-1135 | an update replaces one pool cell by one under the same lock, by a valid step, with tokens and liquidity moving together |
| `AcceptedCells.TripleLocksRead` | UDTswap_scripts/UDTswap_udt_based.c:369-424 | the six cells of an accepted triple are under one lock, with the pool lock's code and 64 bytes of args |
| `AcceptedCells.TripleHeadsRead` | UDTswap_scripts/UDTswap_udt_based.c:426-442 | its head cells have 48 bytes of data and one type hash, with the pool's code and 44 bytes of args behind |
| `AcceptedCells.TripleAmountsRead` | UDTswap_scripts/UDTswap_udt_based.c:446-604 | the numbers that the heads' data spell are the capacities or the leading 16 bytes of the cells behind, which are of the assets that the lock's args name |
| `AcceptedCells.StepRead` | UDTswap_scripts/UDTswap_udt_based.c:999-1013 | in a valid step reserves are at least 30000000000 for CKB or 1, more than that afterwards, and without that the numbers make a step of the pool |
| `AcceptedCells.LiquidityRead` | UDTswap_scripts/UDTswap_udt_based.c:1052-1127 | liquidity changes at triple 0 only, with output 4 or input 3 of the type with the token's code and as args the pool's lock hash followed by the pool's args |
| `AcceptedCells.CreationGroupRead` | UDTswap_scripts/UDTswap_udt_based.c:684-719 | a created pool's script has no input and output 0 only, and its args are the first input |
| `AcceptedCells.CreationLocksRead` | UDTswap_scripts/UDTswap_udt_based.c:721-768 | a new pool's three cells are under one lock, with the pool lock's code and two asset hashes in byte order |
| `AcceptedCells.CreationStateRead` | UDTswap_scripts/UDTswap_udt_based.c:848-856 | a new pool's data spell 30000000000 or 1 for each reserve and no liquidity |
| `AcceptedCells.CreationFirstRead` | UDTswap_scripts/UDTswap_udt_based.c:811-828 | its first asset cell holds that reserve |
| `AcceptedCells.CreationSecondRead` | UDTswap_scripts/UDTswap_udt_based.c:830-846 | its second asset cell is typed, and so many of its bytes as the first load's length allows spell 1 together with what the buffer held |
| `SeparateRuns.SameUpdate` | UDTswap_scripts/UDTswap_udt_based.c:510-604 | where amounts fill the 16-byte buffers, accepting an update does not depend on what the buffers held |
| `SeparateRuns.OneSetOfBuffers` | UDTswap_scripts/UDTswap_udt_based.c:510-604 | scripts that each accept with bytes of their own in their buffers also accept all with the same ones |
| `SeparateRuns.SameFeeCellApart` | UDTswap_scripts/UDTswap_udt_based.c:977-998 | scripts that have run separately count the same number of pools |
| `SeparateRuns.ClassifiedApart` | UDTswap_scripts/UDTswap_udt_based.c:941-1137 | the classification into creation, liquidity change or swaps for scripts that have run separately |
| `HonestTransactions.SwapTxAccepted` | UDTswap_scripts/UDTswap_udt_based.c:941-1144 | with any cells of the user behind the pool's, a one-pool transaction that keeps liquidity and pays the fee is accepted if and only if it is a swap above the default reserves |
| `HonestTransactions.DepositTxAccepted` | UDTswap_scripts/UDTswap_udt_based.c:1061-1095 | one in which liquidity grows is accepted if and only if it is a deposit and the user's first output is of the pool's token |
| `HonestTransactions.RemovalTxAccepted` | UDTswap_scripts/UDTswap_udt_based.c:1096-1127 | one in which liquidity falls is accepted if and only if it is a withdrawal and the user's first input is of the pool's token |
| `HonestTransactions.CreationAccepted` | UDTswap_scripts/UDTswap_udt_based.c:684-863 | a creation, whatever else it spends and makes, is accepted if and only if the asset hashes are in byte order, the args are the first input and, for CKB as first asset, the upper half of the second amount's buffer was zero |
| `HonestTokens.TokenScriptAccepts` | UDTswap_scripts/UDTswap_liquidity_UDT_udt_based.c:104-205 | the token's script accepts such a transaction if and only if the user's token cells are proper, their sums fit and they balance against the recorded liquidity |
| `UncoveredRemovals.OneTokenEachAccepted` | UDTswap_scripts/UDTswap_liquidity_UDT_udt_based.c:87-93 | with one token cell on each side, if and only if both amounts are positive and balance |
| `HonestTokens.LockScriptAccepts` | UDTswap_scripts/UDTswap_lock_udt_based.c:61-104 | the pool's lock opens for the pool's own three cells in the first turn |
| `HonestTokens.QuotedSwapGoesThrough` | test/utils.js:89-111 | from quote to chain: the swap of the first asset that a client quotes, if it grants anything, is accepted by pool and lock once built |
| `HonestTokens.QuotedReverseSwapGoesThrough` | test/utils.js:89-111 | the same for a swap of the second asset |
| `HonestTokens.QuotedDepositGoesThrough` | test/utils.js:120-132 | a quoted deposit that mints anything is accepted by all three scripts when the quoted liquidity is given out in tokens |
| `HonestTokens.QuotedWithdrawalGoesThrough` | test/utils.js:141-152 | a quoted withdrawal of part of the liquidity that pays both assets is accepted by all three scripts when it is paid for in tokens |
| `HonestTokens.BoughtOutputGoesThrough` | UDTswap_scripts/UDTswap_udt_based.c:216-233 | whoever wants a given output of the second asset gets it for its price, written out: pool and lock accept |
| `HonestTokens.BoughtOutputBackGoesThrough` | UDTswap_scripts/UDTswap_udt_based.c:216-233 | the same for an output of the first asset |
| `HonestTokens.FirstDepositAccepted` | UDTswap_scripts/UDTswap_udt_based.c:1061-1081 | the first deposit is accepted by the pool's script if and only if it raises both reserves, the first to 1000 or more above its default, mints exactly that, and has the token's cell |
| `HonestTokens.FirstDepositGoesThrough` | UDTswap_scripts/UDTswap_udt_based.c:1061-1081 | such a deposit into a new pool is accepted by all three scripts when as many tokens are given out |
| `HonestSwaps.EachSwapAccepted` | UDTswap_scripts/UDTswap_udt_based.c:973-1140 | with any number of pools trading in one transaction and the fee for all of them paid, each pool's script accepts if and only if its own trade is a swap above the default reserves |
| `HonestSwaps.LocksOpen` | UDTswap_scripts/UDTswap_lock_udt_based.c:61-104 | every pool's lock opens there, be it shared by several of the pools or not |
| `HonestSwaps.SwapsGoThrough` | UDTswap_scripts/UDTswap_udt_based.c:941-1144 | so swaps of any number of pools in one transaction go through all their scripts and locks |
| `UncoveredRemovals.UncoveredRemovalAccepted` | UDTswap_scripts/UDTswap_liquidity_UDT_udt_based.c:89-90 | acceptance does not make a withdrawal covered: with one token in and a wrapped output, all three scripts accept every valid withdrawal of two units or more |
| `ChainRuns.TxEffect` | UDTswap_scripts/UDTswap_udt_based.c:941-1144 | every admissible transaction creates the pool, updates it or leaves it alone, and always moves tokens with liquidity modulo 2^128 |
| `ChainRuns.TurnKeepsGood` | UDTswap_scripts/UDTswap_udt_based.c:941-1144 | one posting keeps the invariant of all chains |
| `ChainRuns.TokensTrackLiquidity` | UDTswap_scripts/UDTswap_liquidity_UDT_udt_based.c:87-202 | at every point of every chain the outstanding tokens are congruent to the pool's total liquidity modulo 2^128 |
| `ChainRuns.EqualIffCovered` | UDTswap_scripts/UDTswap_liquidity_UDT_udt_based.c:87-93 | equality of the two is kept by a posting if and only if the token inputs cover the fall of liquidity, if any |
| `ChainRuns.TokensEqualLiquidity` | UDTswap_scripts/UDTswap_liquidity_UDT_udt_based.c:87-202 | so they are equal on every chain whose burns are all covered |
| `ChainRuns.OnePoolCell` | UDTswap_scripts/UDTswap_udt_based.c:684-717 | a pool has at most one live cell, is created at most once, and its cell never disappears |
| `ChainRuns.PoolIsSane` | UDTswap_scripts/UDTswap_udt_based.c:848-1127 | on every chain the pool is at least at its default reserves and, above them, empty or funded |
| `ChainRuns.ShareValueNeverFalls` | UDTswap_scripts/UDTswap_udt_based.c:1014-1127 | on every chain, whatever else is posted, a funded pool stays funded and the value of a share of it never falls |
| `Solvency.InputsBalance` | UDTswap_scripts/UDTswap_lock_udt_based.c:14-104 | what a transaction takes from under a pool lock is exactly what the pool cells among its inputs have recorded |
| `Solvency.OutputsCover` | UDTswap_scripts/UDTswap_udt_based.c:505-604 | what it puts under the lock is at least what the pool cells among its outputs record, by update or by creation |
| `Solvency.SurplusNeverFalls` | UDTswap_scripts/UDTswap_udt_based.c:505-604 | over every chain, what is locked of an asset less what all live pools under the lock have recorded of it never falls |
| `Solvency.AlwaysSolvent` | UDTswap_scripts/UDTswap_udt_based.c:505-604 | at every point of every chain, what is locked of either asset under a pool lock covers what all live pools under it have recorded |
| `MoleculeLayout.HeaderIsEncoding` | UDTswap_scripts/molecule_reader.h:177-201 | a string with a well-formed offset header is the encoding of its slices |
| `MoleculeLayout.SlicesOfEncoding` | UDTswap_scripts/molecule_reader.h:177-201 | the slices of an encoding are the items encoded |
| `MoleculeReader.BytesVerifyExact` | UDTswap_scripts/molecule_reader.h:94-104 | verification as a byte vector accepts exactly the encodings of byte strings below 2^32 |
| `MoleculeReader.SliceIsItem` | UDTswap_scripts/molecule_reader.h:177-201 | on a well-formed header slice k is item k, in bounds, and past the end there is none |
| `MoleculeReader.RawBytesAreContent` | UDTswap_scripts/molecule_reader.h:211-216 | the raw bytes of a verified byte vector are its content, in bounds |
| `MoleculeReader.BytesVecVerify` | UDTswap_scripts/protocol.h:676-723 | accepts exactly the well-formed vectors of byte strings, for every memory content |
| `MoleculeReader.BytesVecsAreEncodings` | UDTswap_scripts/protocol.h:676-723 | those are exactly the encodings of lists of byte strings |
| `MoleculeReader.ScriptVerify` | UDTswap_scripts/protocol.h:875-932 | accepts exactly the tables whose first fields are 32 bytes, one byte and a byte string, with further fields only if compatible |
| `ScriptLayout.ScriptPositions` | UDTswap_scripts/udtswap_common.h:24-27 | in a script's bytes the code hash is at 16..48, the hash type at 48 and the args' content from 53 |
| `ScriptLayout.ScriptInjective` | UDTswap_scripts/protocol.h:875-932 | two scripts have the same bytes exactly if their three fields agree |
| `ScriptLayout.AcceptedScriptIsCanonical` | UDTswap_scripts/protocol.h:875-932 | strictly verified bytes are the encoding of their own three fields |
| `ScriptLayout.ScriptsAreEncodings` | UDTswap_scripts/protocol.h:875-932 | strict verification accepts exactly the encodings |
| `ScriptLayout.GettersAgree` | UDTswap_scripts/molecule_reader.h:204-216 | getters and fixed offsets read the same code hash and args, in bounds |
| `MoleculeBuilder.GrowthStops` | UDTswap_scripts/molecule_builder.h:183-187 | some number of doublings in 32 bits gives the need if and only if it is at most 2^31 bytes |
| `MoleculeBuilder.Builder.GrowDataWithin` | UDTswap_scripts/molecule_builder.h:184-187 | the growing loop, any number of turns round, is done exactly if one of that many doublings gives the need, and has then kept the content |
| `MoleculeBuilder.LongListStalls` | UDTswap_scripts/molecule_builder.h:183-201 | a list with more than 2^31 bytes has a first push for which no number of doublings is enough, though its encoding be below 2^32 |
| `MoleculeBuilder.LongListExists` | UDTswap_scripts/molecule_builder.h:183-201 | there are such lists, of proper byte strings |
| `MoleculeBuilder.Builder.Push` | UDTswap_scripts/molecule_builder.h:183-201 | appends the item's bytes and its offset, and keeps all earlier ones over any growing |
| `MoleculeBuilder.Builder.TableAdd` | UDTswap_scripts/molecule_builder.h:215-230 | sets one field and keeps the others over any growing |
| `MoleculeBuilder.Finalize` | UDTswap_scripts/molecule_builder.h:254-271 | turns what was pushed into the encoding of the items |
| `MoleculeBuilder.BuildDynVec` | UDTswap_scripts/molecule_builder.h:183-271 | pushing any list of items and finalizing gives its encoding |
| `MoleculeBuilder.BuiltVecReadsBack` | UDTswap_scripts/protocol.h:676-723 | that encoding passes verification, has the same count, and slice k is item k |
| `MoleculeBuilder.ScriptBuild` | UDTswap_scripts/protocol.h:1371-1429 | the table of the three fields, each replaced by its default if it was not set |
| `MoleculeBuilder.BuildScript` | UDTswap_scripts/protocol.h:1371-1429 | setting three fields and building gives exactly the script's canonical bytes |

## Left out

- Bignum.BignumDiv: requires a positive divisor; every caller checks for zero first. Its assertions that no argument is NULL are left out too.
- MoleculeBuilder.BuildDynVec: is for at most 2^31 bytes of content, since beyond that the growing loop does not end (`GrowthStops`), and says nothing of the header of a list of only empty strings, which `mol_dynvec_builder_finalize` leaves unwritten and which no list of `Bytes` is.
- LockScript.Run: bounds the turns of the matching loop, because that loop has no end of its own when the group is not unlocked.
- PoolScript.CheckNewAmounts: counts the bytes written behind the 16-byte buffer and says when there are any, but not what they do to the stack; where there are none (`Spills` is false) nothing is left out.
- PoolScript.CreateCheck: the same.
- Solvency.AlwaysSolvent: counts typed cells under the lock that are at least 16 bytes long, as the assets' own scripts see to; for shorter ones the scripts read what their buffers held.
- ChainRuns.ShareValueNeverFalls: speaks of one pool at a time; a chain is a list of postings with fresh out points, and cell capacities, fees of the chain itself, time locks and the `since` field have no effect in it.
- `bn.c` with words of 8 or 16 bits, and the big-endian host paths of the Molecule headers.
- The other Molecule types (transactions, blocks, headers) and the builders of unions, options and arrays.
- Failing `malloc` and `realloc`.
- System calls themselves (`ckb_syscalls.h`) and the cycle limits of the virtual machine.
- The hash functions, and the concrete code hashes and fee lock hash, which are parameters (`Consts`).
- `test_udt.c`, a weaker form of the liquidity token's summing loops.
- The rest of `test/`: wallets, remote calls, signing, cell selection and deployment.
