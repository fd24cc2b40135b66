# ShadowLedger, verified

A Dafny model of the parts of ShadowLedger that decide what the ledger is, with proofs:

* **Contracts and their compiler.** The SHL code generator with its back-patched labels, the
  gas-metered stack machine it targets, and the proof that compiled programs do what a direct
  interpreter of the syntax tree does, and what it means on named variables (`Vm`, `Shl*`, `CodeWalk`).
  Every opcode is also stated byte by byte (`Opcodes`), and so are the runs of contracts of the repository, in
  bytecode (`Samples`, `Token`) and in SHL (`ShlToken`).
* **The chain.** The block tree, fork choice, fast-forward and reorg, and depth finality, as steps of a
  node over any ledger (`Fork`, `Chain`, `ChainNode`), with theorems over whole runs (`Finality`,
  `Replays`, `Converge`, `Ahead`), and which blocks get into it (`Admission`).
* **The ledger.** `ApplyBlock` with its eight transaction kinds, rollback and nested contract calls
  (`Contracts`, `Ledger`, `LedgerState`), with supply, atomicity, registry, frame and gas theorems
  (`Supply`, `Effects`, `Atomic`, `Registry`, `Frames`, `Overrun`, `Alike`), when transactions and blocks are
  applied and what they then change (`Conditions`, `BlockRules`, `CallTxs`, `Halving`), and the chain run over this
  ledger (`Network`, `Setback`, `Leaks`, `LedgerLife`, `Bootstrap`).
* **Commitments and selection.** Canonical encodings, the Merkle tree, shard holders and leader
  election (`Codec`, `Wire`, `Canon`, `Merkle`, `Stretched`, `Hrw`), with what they come to in plain numbers, bytes
  and places (`Layouts`, `ShortReads`, `TopDown`, `Orders`), and the engine that authorizes headers (`Engine`).

`dafny verify dfyconfig.toml` checks the whole project.

## How to read it

The program's objects are classes (`ShlGen.Gen`, `VM.Storage`, `Fork.Tree`, `ChainNode.ChainObject`,
`LedgerState.LedgerObject`) and its loops are loops; each method is proved against a function on
values, and the theorems are about those functions. Hashes, signatures, proofs of work, stored
headers and the map iteration order are functions in a configuration (`VM.Frame.digest`,
`Chain.Rules`, `Ledger.Config`, `Contracts.Oracle`, `Merkle.Hasher`), so every theorem holds for all of
them; clocks and block contents chosen by a producer are arguments. Header authorization may read the live
ledger, except in the convergence theorem, which is about headers every ledger authorizes. Words are 64-bit and every
wrap-around of the program is written out as `Wrap`.

Where a function is the meaning of a method, other theorems say what that function is without using it or its
helpers: `Opcodes`, `Halving`, `Conditions`, `BlockRules`, `Admission`, `ShlNames`, `ShlMeaning`, `Orders`, `TopDown`
and `Layouts` write numbers, bytes and conditions out.

Two fields are instruments the program does not have: `spent` counts the gas of all opcodes of a call
and of the calls below it, and `commits` records what successful frames wrote back. Nothing reads them
but the theorems.

In the compiler proofs, predicates over the syntax tree are kept closed behind function values or sets
(`ShlView.Exec`, `ShlGen.View`) and opened one node at a time; `X == true` in a contract passes a
predicate on whole. Both only keep the proofs quick.

## What the proofs say about the program

* `a && b` compiles to a bitwise AND, so it is a conjunction only for operands that share a binary digit
  when both are true, as 0 and 1 do; `2 && 1` is false (`ShlSafe.LogicalOperators`). The language
  reference lists it as logic.
* The comment on `Estimate` calls it a lower bound. For programs without loops it is an upper bound of
  every successful run, exact for straight-line ones (`ShlBound.EstimateBoundsRuns`), and enough gas for
  every run, however it ends (`ShlFuel.EstimateSuffices`). A successful run uses all of it exactly when the
  program has no functions and consists of writes, events and branches without an else whose conditions hold
  (`ShlWhole.WholeEstimate`); `return v` uses less (`ShlFuel.ReturnTakesLess`). With loops it is no bound: what
  a run uses is what its steps cost as often as they are taken (`ShlCost.CostIsExact`), and a loop that goes
  round once uses more (`ShlWhole.LoopTakesMore`).
* `arg(2^61-1)` makes the VM's offset wrap past its length check and index outside the calldata
  (`VM.WordIsExact`); the model ends such a run with `Panic`.
* A jump to 2^63 or beyond passes the VM's check as a negative number, and the next step indexes outside the code
  (`Opcodes.Jumping`, `Opcodes.WildJump`); the model ends such a run with `Panic`. No compiled program does it.
* The byte-layer token of the tests keeps its caller under the key 2^63 while it checks a transfer. A token with that
  id can be transferred by anybody; every other only by its owner (`Token.DeniesOthers`, `Token.Transfers`).
* A block without a coinbase pays its fees to its validator, except when subsidy and fees add up to a multiple of
  2^64 (`BlockRules.BlockLeaves`).
* A fast-forward over several blocks that fails part-way can leave the ledger ahead of the head. Accounts,
  registry, height and supply are still those of the replay exactly when the first block above the head is
  one the ledger refuses; the faucet claims are too exactly when that block, besides, got through no faucet
  transaction (`Setback.FailedForward`). On every configuration and genesis ledger there are three blocks
  that leave the ledger ahead (`Setback.TrapExists`, `Ahead.LedgerRunsAhead`).
* A production that fails on the live ledger leaves tree, head and base as they were, and the ledger as a
  reader sees it but for faucet claims; those stay exactly when the block got through no faucet transaction
  before the one that failed (`Leaks.FailedProduction`). In runs of executable blocks without such a leak the
  ledger always reads like the replay of the canonical chain (`Leaks.LedgerLiveOverRuns`; it rests on
  `Alike.BlockRespects`, since a rollback also leaves empty accounts). After a leak it need not: the node
  then refuses a block with that claim, although the block executes on the replay and is the tip, and its
  head stays below it (`Leaks.HeadStalls` is such a run). How far reorgs reach does not depend on it
  (`Replays.BoundedOverRuns`).
* The gas bound of nested calls holds for exactly the limits up to 2^64-101: under a higher one a call that
  fails can bring the counter to the limit and the next store past 2^64 (`Overrun.BoundIsExact`).
* `Clone` and `ReplaceWith` leave out the logs of the last block. After a rewind the events stored for every
  block of the new branch are therefore those of the abandoned head (`LedgerLife.Rewind`); a fast-forward
  stores each block's own (`LedgerLife.FastForward`). The chain's theorems are about the ledger without
  these logs; a produced header's commitment to its own is part of its seal.
* `ApplyBlock` documents that nothing is mutated on error. Accounts, registry, height, supply and logs are
  indeed as before (`Atomic.RefusedBlockChangesNothing`); faucet claims of the transactions before the
  failing one stay (`Atomic.RefusedBlockLeaksClaims` says which). With a cooldown none do exactly when there is
  no faucet transaction among them (`Atomic.RefusedBlockWithoutClaims`); `Atomic.ClaimOutlives` is a block after
  which one does.
* Lists of leaves of different lengths can share a Merkle root: exactly those that stretch to one list when
  the last node of odd levels is repeated (`Stretched.RootsAgree`), so that the shorter is a prefix of the longer.
* Bodies decode from other data than their encoding: exactly when a record is padded or has bytes left
  over, or something follows the last (`Canon.CanonicalIsExact`). A record cut off inside its signature is padded
  (`ShortReads.CutTxDecodes`).
* The comment on storage-proof transactions gives their data an index field; the code derives the index,
  and the model follows the code.

## Model

| member | source | states |
|---|---|---|
| VM.ExecuteB | internal/vm/vm.go:155-531 | the interpreter loop computes `Run` on working copies, and the storage maps change only when it halts well |
| Opcodes.Refusals | internal/vm/vm.go:189-199 | with the price of every instruction written out: the step limit first, then the gas, then unknown bytes and missing operands |
| Opcodes.WrappingArithmetic | internal/vm/vm.go:553-560 | addition, subtraction and multiplication are modulo 2^64 |
| Opcodes.Division | internal/vm/vm.go:561-570 | quotient and remainder, refused for a zero divisor |
| Opcodes.CheckedSum | internal/vm/vm.go:236-256 | checked addition and subtraction give the exact result, or end the run when it is no word |
| Opcodes.CheckedProduct | internal/vm/vm.go:257-262 | so does checked multiplication |
| Opcodes.Comparison | internal/vm/vm.go:571-576 | equal, less, greater |
| Opcodes.Bitwise | internal/vm/vm.go:577-582 | AND and OR work on each binary digit |
| Opcodes.Negation | internal/vm/vm.go:286-295 | zero test and complement |
| Opcodes.Pushing | internal/vm/vm.go:204-215 | eight operand bytes, most significant first; refused when the code ends before them or the stack is full |
| Opcodes.Duplicating | internal/vm/vm.go:296-304 | the top word twice, if there is room |
| Opcodes.Swapping | internal/vm/vm.go:305-315 | the two top words trade places |
| Opcodes.Surroundings | internal/vm/vm.go:358-381 | caller, value, balance, own id and calldata length |
| Opcodes.Calldata | internal/vm/vm.go:370-377 | a calldata word, or zero where the data end before it does; indexes count modulo 2^61, and the last of them is read outside |
| Opcodes.Jumping | internal/vm/vm.go:316-324 | to a destination inside the code; others are refused, but one of 2^63 or more is taken for a negative number |
| Opcodes.Branching | internal/vm/vm.go:325-339 | the same if the condition is not zero, else straight on |
| Opcodes.WildJump | internal/vm/vm.go:316-324 | after a jump to a negative place the next step indexes outside the code |
| Opcodes.Ending | internal/vm/vm.go:284-285 | STOP ends well, REVERT does not |
| Opcodes.Returning | internal/vm/vm.go:492-506 | a word, or the bytes under a key |
| Opcodes.Storing | internal/vm/vm.go:348-357 | one word of storage changes |
| Opcodes.Loading | internal/vm/vm.go:340-347 | the word under a key, zero when it was never written |
| Opcodes.Mixing | internal/vm/vm.go:266-283 | the digest of base and key |
| Opcodes.StoringBytes | internal/vm/vm.go:443-453 | that part of the calldata under the key; refused when it is not all there |
| Opcodes.ComparingBytes | internal/vm/vm.go:454-462 | whether the bytes under two keys are equal |
| Opcodes.MeasuringBytes | internal/vm/vm.go:463-470 | how many bytes there are under a key |
| Opcodes.HashingBytes | internal/vm/vm.go:471-479 | their digest |
| Opcodes.Addresses | internal/vm/vm.go:480-491 | the caller's address, or the contract's own, under a key |
| Opcodes.Logging | internal/vm/vm.go:418-438 | the topics in the order they were pushed, at eight gas each |
| Opcodes.LoggingTooMuch | internal/vm/vm.go:418-438 | more than eight topics, too little gas or too few words end the run |
| Opcodes.CallingNobody | internal/vm/vm.go:396-401 | without a host, or eight calls deep, a call leaves zero |
| Opcodes.Calling | internal/vm/vm.go:382-417 | the host is asked with at most the gas that is left; its answer is charged for and its result is on the stack, or zero |
| Samples.CounterCounts | internal/state/contract_test.go:19-30 | every run of the counter with 131 gas adds one to its word modulo 2^64 and changes nothing else; with less it runs out of gas |
| Token.Mints | internal/state/erc721_test.go:21-52 | selector 0 of the byte-layer token stores the caller's address under the token's id |
| Token.Answers | internal/state/erc721_test.go:21-52 | selectors above 1 return the owner's address and write nothing |
| Token.DeniesOthers | internal/state/erc721_test.go:21-52 | a transfer by someone else fails with any gas and any calldata, unless the token's id is 2^63, which is the key the check uses itself |
| Token.Transfers | internal/state/erc721_test.go:21-52 | the owner's transfer with 267 gas stores the 42 bytes after the two words; with less, or fewer bytes, it fails |
| Token.TokenExists | internal/state/erc721_test.go:21-52 | the bytes of such a contract |
| VM.StepCounts | internal/vm/vm.go:189-199 | every turn of the loop takes one step of the step budget, so runs terminate; only CALL with a host below the depth limit calls out |
| VM.WordIsExact | internal/vm/vm.go:133-143 | the calldata word is the exact one below index 2^61-1, indexes out of bounds there, and repeats beyond |
| ShlCorrect.CheckedIsExact | internal/vm/vm.go:236-265 | checked addition, subtraction and multiplication refuse exactly the results that are not 64-bit words |
| ShlCorrect.SimExpr | internal/shl/compile.go:295-403 | running the code of an expression leaves the interpreter's value on the stack, or fails as it does, or hits a limit |
| ShlStmts.SimStmt | internal/shl/compile.go:180-284 | running the code of a statement, with nested branches and loops, ends as the interpreter does, the stack untouched |
| ShlProgram.CompiledCodeIsCorrect | internal/shl/compile.go:51-136 | a program's bytecode, on any storage, calldata, context, gas and host, gives the interpreter's storage, logs, return value or error, or stops on a gas, step or stack limit |
| ShlSafe.CompiledCodeIsSafe | internal/vm/vm.go:316-339 | no run of compiled code underflows the stack or ends in a bad jump, and one meets a bad instruction only through an emit of more than eight arguments |
| ShlJumps.CompiledJumpsLand | internal/shl/compile.go:145-156 | in the code of every program each jump comes right after a PUSH of its target, which is the start of an instruction inside the code; without loops it is ahead |
| ShlFuel.RunsStayOnTrack | internal/vm/vm.go:189-199 | every machine a run of compiled code goes through is at the start of an instruction, and before a jump or LOG its operand is on top of the stack |
| ShlSafe.LogicalOperators | internal/shl/compile.go:386-389 | when the bitwise operators are the logical ones |
| ShlSafe.CompileAndRun | internal/shl/estimate.go:48-54 | compiling, estimating and running in one: the storage ends as the program means, the estimate bounds the gas |
| ShlGen.Gen.Emit | internal/shl/compile.go:138-138 | one opcode is appended and stays |
| ShlGen.Gen.PushU64 | internal/shl/compile.go:139-144 | a PUSH with its big-endian operand is appended and stays |
| ShlGen.Gen.NewLabel | internal/shl/compile.go:145-145 | a fresh unmarked label |
| ShlGen.Gen.Mark | internal/shl/compile.go:146-146 | the label's position is the end of the code so far, marked before or not; a first mark keeps all that was written |
| ShlGen.Gen.PushLabel | internal/shl/compile.go:147-151 | a PUSH with a hole is appended; holes are disjoint PUSH operands inside the code |
| ShlGen.Gen.Slot | internal/shl/compile.go:159-167 | the local's slot, allocated on first use |
| ShlGen.Gen.DeclState | internal/shl/compile.go:170-178 | the state variable's slot, allocated on first use |
| ShlGen.Gen.Expr | internal/shl/compile.go:295-363 | reports the first error in evaluation order, or emits exactly the expression's layout |
| ShlGen.Gen.Operator | internal/shl/compile.go:365-403 | emits the operator's one or two opcodes |
| ShlGen.Gen.Stmt | internal/shl/compile.go:180-284 | reports the first error, or emits exactly the statement's layout, every label it made being marked |
| ShlGen.Gen.Stmts | internal/shl/compile.go:286-293 | the same for a list, with the scope growing in textual order |
| ShlCompile.FillsOne | internal/shl/compile.go:152-156 | patching one hole disturbs neither the code around it nor the holes patched before |
| ShlCompile.Resolve | internal/shl/compile.go:152-156 | every hole holds its label's position and the rest of the code is unchanged |
| ShlCompile.Dispatch | internal/shl/compile.go:97-136 | emits the selector router and the functions, each at its label in a fresh local scope |
| ShlCompile.Compile | internal/shl/compile.go:51-95 | the first compile error, or bytecode that is the program's layout with every jump at its absolute address |
| ShlNames.CompileByNames | internal/shl/compile.go:51-95 | a program compiles exactly when every indexed name is declared as state and every name read is state, a parameter or assigned at an earlier place of its function or of the prelude; else the error names the first name that is not |
| ShlNames.ProgramIsChecked | internal/shl/compile.go:295-330 | the same of the compiler's checks, name by name in textual order |
| ShlMeaning.OperatorsMean | internal/shl/compile.go:365-403 | the operators in integer arithmetic and binary digits |
| ShlMeaning.StateSlotIs | internal/shl/compile.go:170-178 | the slot of a state variable is the base of the state slots plus the number of names declared before it |
| ShlGas.Estimate | internal/shl/estimate.go:13-45 | the scan's total modulo 2^64 |
| ShlGas.EstimateOfProgram | internal/shl/estimate.go:13-45 | the estimate of compiled code is the gas of executing each of its instructions once |
| ShlBound.ChargedIsCounted | internal/vm/vm.go:189-199 | what a successful run is charged is the gas it counted, modulo 2^64 |
| ShlBound.EstimateBoundsRuns | internal/shl/estimate.go:13-45 | a successful run of a program without loops uses at most the estimate; of writes and events only, exactly the estimate |
| ShlFuel.EstimateSuffices | internal/shl/estimate.go:13-45 | a program without loops, given at least the estimate, never runs out of gas, however it ends |
| ShlFuel.ReturnTakesLess | internal/shl/estimate.go:13-45 | a program whose every run with enough gas uses 4 where the estimate is 5 |
| ShlCost.CostIsExact | internal/vm/vm.go:189-199 | the gas a successful run of any compiled program counts, loops and all, is exactly the cost of interpreting the program |
| ShlWhole.ChargedIsCost | internal/vm/vm.go:189-199 | and what it is charged is that cost modulo 2^64 |
| ShlWhole.WholeEstimate | internal/shl/estimate.go:13-45 | a successful run of a program without loops uses the whole estimate exactly when the program has no functions and only writes, events and branches without an else whose conditions hold |
| ShlWhole.LoopTakesMore | internal/shl/estimate.go:13-45 | a program with a loop whose every successful run on empty storage uses 169 where the estimate is 140 |
| ShlSlots.AllocationKeepsApart | internal/shl/compile.go:158-178 | locals and state variables never share a slot; only hashed and raw keys could collide |
| ShlSlots.ProgramsAllocate | internal/shl/compile.go:51-74 | the scopes of every program with fewer than 2^32 locals per function have injective, disjoint slot ranges |
| ShlSlots.VariablesAreIndependent | internal/shl/compile.go:180-293 | a list of statements behaves as if locals, state variables, mapping entries and raw keys were separate variables, if the hashed and raw keys used stay clear of the reserved ranges and of each other |
| ShlNamed.ProgramVariablesAreIndependent | internal/shl/compile.go:51-136 | the same of whole programs, with top-level statements, dispatch and parameters: results, events, errors and the values left are those of separate variables |
| ShlNamed.CompiledVariablesAreIndependent | internal/shl/compile.go:51-136 | the same of the VM running the compiled program, unless it stops on a gas, step or stack limit |
| ShlToken.CompiledTransfer | contracts/token.shl:27-32 | `transfer` of the tokens, compiled and run on any storage and in any frame: refused exactly when the sender has less or the receiver would pass 2^64, else the amount has moved and nothing else but the parameters' slots has changed; or the run hits a limit |
| ShlToken.TransferConserves | contracts/memecoin.shl:23-28 | what all accounts have together stays the same |
| Fork.Less | internal/forkchoice/forkchoice.go:98-105 | the loop computes the lexicographic order |
| Fork.BelowTransitive | internal/forkchoice/forkchoice.go:98-105 | the order is transitive |
| Fork.BelowTotal | internal/forkchoice/forkchoice.go:98-105 | the order is total |
| Orders.BelowPrecedes | internal/forkchoice/forkchoice.go:98-105 | the id with the smaller byte at the first difference comes first |
| Fork.Tree.Add | internal/forkchoice/forkchoice.go:35-44 | a new block gets its parent's cumulative weight plus its own; a known one changes nothing |
| Fork.Tree.Best | internal/forkchoice/forkchoice.go:48-58 | visiting blocks in any order yields the heaviest, ties to the smallest id |
| Fork.BestIsUnique | internal/forkchoice/forkchoice.go:46-58 | there is only one such block |
| Orders.TipIs | internal/forkchoice/forkchoice.go:48-58 | the tip has the most cumulative weight, and of the blocks with as much its id comes first in the dictionary |
| Fork.Tree.CommonAncestor | internal/forkchoice/forkchoice.go:68-96 | the first shared block: the common ancestors are exactly its own line; none is reported exactly when there is none |
| ChainNode.ChainObject.Genesis | internal/chain/chain.go:378-388 | given a block and a ledger, head, base, tree and bodies start there, once |
| Bootstrap.Start | internal/chain/chain.go:331-389 | from a configuration: the block is made, the ledger funded and the chain begun with both; a second attempt changes nothing |
| Bootstrap.GenesisIsUnique | internal/chain/chain.go:326-345 | whatever order the funding table is visited in, every node makes the same block |
| LedgerLife.Fund | internal/chain/chain.go:366-373 | visiting the funding table in any order: its balances, its total minted, one unbonded validator, height 0 |
| ChainNode.ChainObject.RecordBlock | internal/chain/chain.go:395-400 | tree and bodies gain the block |
| ChainNode.ChainObject.WalkDown | internal/chain/reorg.go:59-77 | terminates, and returns the path from `stop` to `tip` in ascending order exactly when `stop` is an ancestor |
| ChainNode.ReverseInPlace | internal/chain/reorg.go:73-75 | the swaps reverse the list |
| ChainNode.ChainObject.AdvanceFinality | internal/chain/chain.go:166-202 | the base moves to the canonical block `depth` below the head, if the blocks between replay |
| ChainNode.UpToReversed | internal/chain/chain.go:175-190 | filtering while walking down and replaying backwards is filtering the ascending path |
| ChainNode.ChainObject.ReorgToBest | internal/chain/reorg.go:87-132 | the head follows the canonical tip by fast-forward or replay, or stays |
| ChainNode.ChainObject.AcceptBlock | internal/chain/reorg.go:21-54 | every refusal in order, or the block recorded and the tip followed; the invariant is kept |
| Admission.ReceivedIsChecked | internal/chain/reorg.go:21-54 | a new block is stored exactly when it is authorized on the ledger of the moment, matches both roots, and its parent is stored, one lower and old enough for its round; else nothing changes and the error names the first check that failed |
| Admission.AdmittedOverRuns | internal/chain/reorg.go:21-54 | at every point of a run, a block other than the genesis block is stored exactly when at an earlier step it was received and passed all checks on the node of that step, or the node made it |
| ChainNode.ChainObject.ProduceBlock | internal/chain/chain.go:404-459 | a block executed on the live ledger, sealed, recorded and made head; the invariant is kept |
| Admission.ProducedIsMade | internal/chain/chain.go:404-459 | the produced block is on the head, one higher, with the proposal's fields, and becomes the head; a failed production stores nothing |
| Chain.WalkJoins | internal/chain/reorg.go:59-77 | paths compose |
| Chain.AncestorsLineUp | internal/chain/reorg.go:59-77 | two ancestors of one block are on one line |
| Finality.AdvanceClimbs | internal/chain/chain.go:166-202 | finality keeps the invariant and moves the base only up the canonical chain |
| Finality.ForwardKeeps | internal/chain/reorg.go:94-106 | a fast-forward keeps the invariant; from a replayed ledger it succeeds exactly when the tip's chain executes, and ends replayed |
| Finality.RewindKeeps | internal/chain/reorg.go:108-132 | a reorg succeeds exactly when the tip's chain executes, and then the ledger is its replay; otherwise nothing changes |
| Finality.FinalityOverRuns | internal/chain/chain.go:166-202 | over every run, successful steps or not: the base is an ancestor of the head with the ledger of its replay, its height never falls, and blocks at or below it stay canonical forever |
| Replays.ReceiveWhenLive | internal/chain/reorg.go:21-54 | a ledger that is the replay stays so after every step but a failed fast-forward, and no step fails when every stored block executes |
| Replays.FailedReceive | internal/chain/reorg.go:94-116 | on any ledger: a failed divergent reorg changes nothing but the record of the block; a failed fast-forward leaves head, base, tree and bodies alone, and the ledger where execution stopped |
| Setback.FailedForward | internal/chain/reorg.go:94-106 | on the ledger of accounts, from one that reads like the replay: after a failed fast-forward accounts, registry, height and supply are still those of the replay exactly when the ledger refuses the first block above the head, and the faucet claims too exactly when that block got through no faucet transaction |
| Replays.LiveOverRuns | internal/chain/reorg.go:87-132 | on any ledger, for any likeness that execution respects: in runs of executable blocks whose failed productions leave the ledger like it was, it is always like the replay of the canonical chain, and no replay fails |
| Leaks.FailedProduction | internal/chain/chain.go:443-445 | a failed production leaves tree, head and base alone, and accounts, registry, height and supply those of the replay; the claims too exactly when the block got through no faucet transaction |
| Leaks.LedgerLiveOverRuns | internal/chain/reorg.go:87-132 | on the ledger of accounts: in runs of executable blocks, failed productions included as long as none got through a faucet transaction, the ledger reads like the replay at every point |
| Leaks.HeadStalls | internal/chain/chain.go:443-445 | a run of executable blocks with one failed production after which the ledger is not the replay, the node refuses the tip, and its head stays |
| Replays.BoundedOverRuns | internal/chain/chain.go:166-202 | in every run of executable blocks, steps that fail included, each step leaves the base at the maximum of where it was and `depth` below the head, and the head's weight never falls |
| Replays.DeepBlocksStay | internal/chain/chain.go:166-202 | a block `depth` or more below the head stays canonical forever, if the blocks stored by then execute |
| Converge.NodesConverge | internal/chain/reorg.go:21-54 | with finality off, two nodes given one set of executable, authorized blocks in any parent-first orders with repeats end with the same tree, head, base and ledger |
| Ahead.LedgerRunsAhead | internal/chain/reorg.go:94-106 | three received blocks after which the ledger is not the replay of the canonical chain |
| Setback.TrapExists | internal/chain/reorg.go:94-106 | for every configuration and genesis ledger, such blocks of real transactions: two with a stolen coinbase, an empty one |
| Economy.BlockReward | internal/economy/economy.go:31-44 | minting the subsidy never passes the cap |
| Halving.SubsidyIs | internal/economy/economy.go:31-44 | at every height and supply: the lesser of what is left of 2,100,000,000,000,000 units and 5,000,000,000 divided by two to the power of height / 210,000; nothing once all are minted |
| Halving.SubsidyHalves | internal/economy/economy.go:31-44 | where the cap does not cut it short, the subsidy 210,000 blocks later is half of it, rounded down |
| Halving.FirstSubsidy | internal/economy/economy.go:31-44 | below height 210,000 it is 50 coins, as long as the cap leaves as much |
| Economy.RewardFalls | internal/economy/economy.go:31-44 | the subsidy never grows with height or supply |
| Economy.Emitted | internal/economy/economy.go:28-44 | any number of blocks at any heights emit no more than the cap |
| Contracts.Find | internal/state/state.go:695-702 | a contract with code and that digest, whichever the map yields; none exactly when there is none |
| Frames.NestedGasIsBounded | internal/state/state.go:711-739 | nested execution terminates, and all opcodes charged in a call and below it, reverted or not, cost at most its limit |
| Overrun.BoundIsExact | internal/vm/vm.go:189-199 | a limit bounds the opcodes of every call under it exactly when it is at most 2^64-101 |
| Frames.ContractFrameRule | internal/state/state.go:711-739 | a call changes no balance, nonce or code; each contract's storage is what its last successful frame wrote back, or what it was |
| Frames.FailedFrame | internal/state/state.go:726-729 | a failing frame charges its whole limit and leaves its contract as the last nested commit left it |
| Frames.CallWithin | internal/state/state.go:802-814 | a nested call keeps to the frame rule |
| LedgerState.LedgerObject.ExecContract | internal/state/state.go:711-739 | runs the VM on copies and writes storage and events back only on success |
| CallTxs.CallTransaction | internal/state/state.go:512-522 | the callee runs with the sender's digest and address as caller, its own as self, and the transaction's data, value and gas; a run that succeeds is in the contract's account, one that fails returns the value |
| CallTxs.NestedCall | internal/state/state.go:802-814 | a contract called by a contract sees that contract's digest as caller, the argument as calldata and no value; an unknown digest costs nothing, a failure all the gas |
| CallTxs.HostCalls | internal/state/state.go:714-725 | a contract's calls go to such contracts, one level deeper |
| CallTxs.EventsAreLogged | internal/state/state.go:733-737 | one event for each LOG, in order, with the contract and the transaction's place |
| CallTxs.CounterTx | internal/state/contract_test.go:41-71 | an applied call of the counter with 131 gas adds one to its word, and changes no other storage |
| CallTxs.TransferTx | internal/state/erc721_test.go:49-85 | an applied transfer of the byte-layer token leaves every owner and all other storage as it was, unless the sender passes the owner check |
| LedgerState.LedgerObject.Clone | internal/state/state.go:272-294 | a fresh copy without the last logs, configured as InheritConfig does for replays |
| LedgerState.LedgerObject.ReplaceWith | internal/state/state.go:298-316 | takes over everything of the other but its last logs |
| LedgerState.LedgerObject.Snapshot | internal/state/state.go:437-446 | the first snapshot of an account is kept |
| LedgerState.Restore | internal/state/state.go:449-456 | every snapshotted account is as its snapshot, in whatever order they are restored |
| LedgerState.LedgerObject.ApplySlash | internal/state/state.go:370-395 | a tenth of the bond to the reporter, the validator barred |
| LedgerState.LedgerObject.ApplyTx | internal/state/state.go:469-648 | the checks in order, the debit, and the effect of each kind |
| Conditions.Uncharged | internal/state/state.go:472-494 | which check refuses a transaction whose sender cannot be charged |
| Conditions.CheckedIsChargeable | internal/state/state.go:396-423 | the check of a single transaction lets through exactly what a block executed now could charge |
| Conditions.RegisterTx | internal/state/state.go:523-543 | a registration is applied exactly when the sender can be charged, has solved the puzzle, bonds 1,000 coins or more, and neither validates nor has been slashed; the record it writes |
| Conditions.UnregisterTx | internal/state/state.go:549-557 | applied exactly for validators; the bond comes back and the record goes |
| Conditions.SlashTx | internal/state/state.go:370-395 | applied exactly when the evidence convicts an active validator; the record it writes and the tenth it pays |
| Conditions.FaucetTx | internal/state/state.go:558-602 | applied exactly when the anchor is deep and recent, the proof of work holds, the sender's cooldown is over and the treasury has the amount; what it pays and records |
| Conditions.StorageProofTx | internal/state/state.go:603-644 | applied exactly when the sender validates, the target is in the window and deep enough, and the data hold the shard at the digest of sender and block id modulo the number of shards; the record gains a point up to the cap and the height, and nothing else changes |
| Conditions.PlainTx | internal/state/state.go:501-522 | deployments, calls and transfers are applied whenever the sender can be charged, and leave registry and claims alone |
| Conditions.TransferTx | internal/state/state.go:645-648 | the recipient gets the amount |
| Conditions.DeployTx | internal/state/state.go:502-511 | code and amount at the contract's address; what is stored there stays |
| LedgerState.LedgerObject.ApplyBlock | internal/state/state.go:430-673 | the block's effect, or the first error and the rolled-back ledger |
| BlockRules.BlockIsAccepted | internal/state/state.go:650-661 | a block is accepted exactly when its transactions go through and its coinbase, if it has one, pays the block's validator the subsidy and the fees |
| BlockRules.GoesIfItRuns | internal/state/state.go:470-649 | they go through exactly when each can be applied to what those before it have left |
| BlockRules.GoneCollects | internal/state/state.go:499-499 | all their fees are then collected |
| BlockRules.SubsidyIsMinted | internal/state/state.go:664-670 | only with a coinbase is the subsidy minted |
| BlockRules.BlockLeaves | internal/state/state.go:650-672 | an accepted block leaves what its transactions have made, with its events, and its validator paid |
| BlockRules.ProducedIsAccepted | internal/chain/chain.go:413-424 | what a producer makes of transactions that apply in turn is accepted, its coinbase included |
| Atomic.RefusedBlockChangesNothing | internal/state/state.go:428-458 | after any error every account as `Get` sees it, the registry, height, supply and logs are as before |
| Atomic.RefusedBlockLeaksClaims | internal/state/state.go:449-458 | the faucet claims a refused block leaves behind, and exactly when it leaves none |
| Alike.BlockRespects | internal/state/state.go:430-673 | on ledgers that read alike a block has the same outcome and error, and leaves ledgers that read alike, through nested contract calls too |
| Effects.TxHasEffect | internal/state/state.go:469-648 | for every account: the sender pays value and fee and its nonce goes up, the recipient of the transaction's kind gains exactly what it should and nobody else does, and code changes only by deployment |
| Effects.CalledGains | internal/state/state.go:512-522 | a call pays the callee, or refunds the sender when the contract fails |
| Effects.CoinbasePays | internal/state/state.go:650-669 | the block's validator gains the subsidy and the fees with a coinbase, the fees without one, and nobody else gains |
| Atomic.RefusedBlockWithoutClaims | internal/state/state.go:587-602 | with a cooldown, a refused block leaves the claims as they were exactly when no faucet transaction precedes the failing one |
| Atomic.ClaimOutlivesBlock | internal/state/state.go:600-602 | whenever a first claim is applied and a misplaced coinbase follows, the block is refused and the claim is on record |
| Atomic.ClaimOutlives | internal/state/state.go:600-602 | a configuration, a ledger and a block for which that happens |
| Supply.TxBalances | internal/state/state.go:469-648 | an applied transaction takes what it burns out of circulation, exactly, and nothing wraps |
| Supply.BlockConservesSupply | internal/state/state.go:430-673 | an accepted block changes balances plus bonds by its subsidy less named burns and uncollected fees; a refused one by nothing |
| Supply.SupplyOverRuns | internal/state/state.go:430-673 | in every reachable state balances plus bonds are at most what was minted, which is at most the cap |
| Supply.GenesisIsSupplied | internal/chain/chain.go:367-376 | a genesis with a premine within the cap starts that way |
| Registry.RegistryOverRuns | internal/state/state.go:523-557 | every record is active and unslashed, or inactive, slashed and without a bond; bonds are zero or at least the minimum; scores respect the cap; a slashed address is never active again |
| Registry.GenesisIsSound | internal/state/state.go:207-214 | the genesis registry is such a registry |
| Registry.StorageWeights | internal/state/state.go:165-180 | one weight per active validator, between one and one plus the cap |
| Orders.WeightIs | internal/state/state.go:165-180 | one more than the score while the last proof is less than the window back, else one |
| Network.HoldsOverRuns | internal/chain/reorg.go:87-132 | what execution keeps holds of the ledger and the replay base at every point of every run |
| Network.LedgersStaySolvent | internal/state/state.go:430-673 | on every node, whatever it is sent, supply and registry hold of the ledger and of the ledger a reorg would rewind to |
| LedgerLife.FastForward | internal/chain/reorg.go:94-106 | applies the blocks in turn and stores the events of each, up to the first that is refused |
| LedgerLife.Rewind | internal/chain/reorg.go:116-127 | replays the branch on a copy of the base and takes it over, or changes nothing; what it stores as the events of each block are those of the abandoned head |
| Codec.TxRoundTrip | internal/types/block.go:121-164 | a transaction is decoded from its encoding, whatever follows |
| Codec.TxBytesIsInjective | internal/types/tx.go:108-112 | a transaction's encoding determines it |
| Layouts.TxStands | internal/types/tx.go:75-112 | at which byte of a transaction's encoding every field stands |
| Codec.SigningBytesIsInjective | internal/types/tx.go:75-88 | what is signed determines everything but the signature |
| Codec.ReadsBytes | internal/types/block.go:97-111 | a length-prefixed string is read back |
| Layouts.DigitAt | internal/types/tx.go:68-72 | a number is its digits to the base 256, the most significant first |
| ShortReads.CutTxDecodes | internal/types/block.go:97-111 | a transaction cut off inside its signature is decoded with zeros for what is missing, and refused when nothing of it is left |
| Wire.EncodeTxs | internal/types/block.go:59-68 | the count and the length-prefixed transactions |
| Wire.DecodeTxs | internal/types/block.go:71-95 | reads them back with exact outer lengths |
| Wire.BodyRoundTrip | internal/types/block.go:59-95 | every body of fewer than 2^32 transactions is read back from its bytes |
| Wire.BodyBytesIsInjective | internal/types/block.go:59-68 | a body's bytes determine it |
| Layouts.BodyStands | internal/types/block.go:59-68 | the number of transactions in four bytes, and each in order after its length |
| Wire.LongerBodiesDecodeToo | internal/types/block.go:71-95 | a byte after a body is accepted |
| Canon.CanonicalIsExact | internal/types/block.go:71-164 | data that decode to a body are its encoding exactly when every record holds its transaction with no short read and no byte left over, and nothing follows the last |
| Wire.EncodeLogs | internal/types/logs.go:50-59 | the count and the length-prefixed logs |
| Wire.DecodeLogs | internal/types/logs.go:65-84 | reads them back |
| Wire.LogsRoundTrip | internal/types/logs.go:50-110 | every list of fewer than 2^32 logs is read back from its bytes |
| Wire.LogBytesIsInjective | internal/types/logs.go:24-33 | a log's encoding determines it |
| Layouts.LogStands | internal/types/logs.go:24-33 | at which byte of a log's encoding every field and topic stands |
| Layouts.LogsStand | internal/types/logs.go:50-59 | the number of logs in four bytes, and each in order after its length |
| Wire.HeaderBytesIsInjective | internal/types/block.go:171-185 | what a validator signs, and the block id hashes, determines the header |
| Layouts.HeaderStands | internal/types/block.go:171-185 | at which byte of what a validator signs every field stands |
| Merkle.Root | internal/merkle/merkle.go:36-55 | the loop computes the root of the duplicated-last-node tree |
| TopDown.RootIsTree | internal/merkle/merkle.go:36-55 | the root is that of the least tree that holds the leaves, split from the top, an empty right half being the left one again; zero for no leaves |
| Merkle.Proof | internal/merkle/merkle.go:64-91 | the siblings from the leaf to the root; none for an index out of range |
| Merkle.Verify | internal/merkle/merkle.go:94-104 | the fold of the steps equals the root |
| Merkle.ProofsVerify | internal/merkle/merkle.go:64-104 | every leaf of every list has a proof that verifies, through all odd levels |
| Merkle.RootBinds | internal/merkle/merkle.go:36-55 | with collision-free hashes, lists of one length with one root are equal |
| Merkle.ProofsAreSound | internal/merkle/merkle.go:94-104 | with collision-free, separated hashes, data that verifies with any steps is in the list |
| Merkle.DuplicateSharesRoot | internal/merkle/merkle.go:36-55 | repeating the last of an odd number of leaves keeps the root |
| Stretched.RootsAgree | internal/merkle/merkle.go:36-55 | with collision-free hashes, non-empty lists have one root exactly when they stretch to one list of leaves, the last node of each odd level being repeated |
| Stretched.SharedRootIsPrefix | internal/merkle/merkle.go:36-55 | of two lists with one root the shorter is a prefix of the longer |
| Hrw.ValidatorSet | internal/consensus/consensus.go:44-55 | the validators without repeats, in strict order |
| Hrw.LeaderFor | internal/consensus/consensus.go:151-174 | the member whose best entry scores highest, ties to the smaller address; it depends on the set alone |
| Hrw.LeaderIsUnique | internal/consensus/consensus.go:151-174 | there is only one leader |
| Orders.LeaderHasTopEntry | internal/consensus/consensus.go:151-174 | the leader is the candidate with an entry no other exceeds, as many entries as its weight; of several the one whose address comes first |
| Engine.Leader | internal/consensus/consensus.go:151-174 | the election has one winner, a validator wherever there is one |
| Engine.AuthorizeHeader | internal/consensus/consensus.go:176-191 | a signed header of a validator, elected for its height, parent and round unless the height is zero; the error names the check that failed |
| Engine.CanProduce | internal/consensus/consensus.go:193-206 | a validator that is elected and proves its storage; what it may produce is authorized |
| Engine.OneAuthor | internal/consensus/consensus.go:176-191 | above the genesis block no two validators are authorized for one height, parent and round |
| Hrw.WeightIsMonotone | internal/consensus/consensus.go:145-174 | raising one validator's weight keeps the leader or makes that validator the leader |
| Hrw.Holders | internal/rendezvous/rendezvous.go:33-55 | the top of the ranking: exactly the nodes that fewer than r entries of the list beat; for distinct nodes exactly the min(r, n) that fewer than r others beat |
| Orders.BeforePrecedes | internal/rendezvous/rendezvous.go:41-46 | ties go to the id that comes first in the dictionary |
| Orders.HoldersScoreHighest | internal/rendezvous/rendezvous.go:33-55 | every holder scores higher than every listed node that is none, or as high with the id that comes first |
| Hrw.HoldersIgnoreOrder | internal/rendezvous/rendezvous.go:33-55 | the ranking does not depend on the order nodes are listed in |
| Hrw.NewcomerEvictsOne | internal/rendezvous/rendezvous.go:33-55 | a new node evicts at most one holder, only by taking its place, and nobody else gains a shard |
| Hrw.IsHolder | internal/rendezvous/rendezvous.go:58-65 | listed, and beaten by fewer than r entries of the list; for distinct nodes, membership in the holder set |
| Hrw.AssignedShards | internal/rendezvous/rendezvous.go:69-77 | in ascending order exactly the shards the node holds, repeats in the list or not |
| Hrw.AheadIsRank | internal/rendezvous/rendezvous.go:33-55 | without repeats the entries that beat a node are the nodes that do |

## Left out

- Lexer and parser: the model starts from the syntax tree; operators and builtins the compiler would refuse cannot be written in it.
- Persistence, shard storage, log storage and restart: bodies are kept in memory, and runs start at a genesis block; a checkpoint set from outside and a node without a replay base after a restart are not runs here.
- `ApplyExternalBlock`: it would only add a linear step that `AcceptBlock` and `ProduceBlock` cover.
- Networking, node, command line, mempool, locking and clocks: timestamps are data, and the check against the current time is not modelled.
- SHA-256, Ed25519, proofs of work, evidence decoding and the readers of stored headers: functions of the configuration.
- Reed-Solomon coding, Bloom filter sizing, storage ratios and network parameters.
- Heights and weights of the block tree are unbounded; the wrap after 2^64 blocks is not modelled.
- Decimal strings as keys of persisted storage: storage is keyed by words.
- Go's limits on allocation below 2^63 bytes.
- The fixed-producer engine, and the storage scoreboard behind `proving` in `Engine.CanProduce`.
- ShlToken.CompiledTransfer: if no balance it touches is kept in the two slots of the parameters, which only a hash could bring about.
- Orders.WeightIs: where the height of the last proof plus the window is below 2^64, and the score can grow by one.
- Fork.Tree.CommonAncestor: for trees without cycles of parents, on which the walks would not end, and, if a block is stored under the zero hash, for other arguments than that.
- Bootstrap.Start: the roots and the signature of the genesis block are part of its seal, and no header hashes to the zero hash.
- ChainNode.ChainObject.AcceptBlock: assumes that no header hashes to the zero hash.
- Admission.ReceivedIsChecked: the same assumption.
- ChainNode.ChainObject.ProduceBlock: assumes that the new block's id is not that of a different stored block.
- Admission.ProducedIsMade: the same assumption.
- Frames.NestedGasIsBounded: for limits up to 2^64-101, which are those for which it holds (`Overrun.BoundIsExact`).
- Contracts.Find: between contracts of one 64-bit digest the choice is a fixed function of the candidates; an order of the map that differs from one execution to the next is not modelled.
- LedgerState.LedgerObject.ApplyTx: a transaction kind above 7 is a transfer, as in the program, and the two resolvers of storage proofs are present or absent together.
