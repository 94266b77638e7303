# Verification of the in-memory Algorand runtime

This project models the runtime that tests Algorand smart contracts in memory, and proves what its ledger, its TEAL
interpreter and its parser are for. It also covers three example contracts that run on the ledger and the command line's
task builder.

- **Ledger.** `Ledger` says what each transaction does to accounts, assets and applications, how a group executes and what
  a run of groups leaves. `AssetConservation`, `MinBalances`, `AlgoConservation`, `Roles`, `FrozenHoldings`, `SchemaRuns`,
  `RangeRuns` and `AtomicGroups` prove the laws of whole runs; `LedgerRuns` carries a law of one transaction to groups and runs, and
  `LedgerFrames`, `LedgerAssets`, `LedgerApps` and `LocalSchemas` hold the laws of the single operations. `AssetLoss` is a run
  that loses units.
- **Shared arrays.** `global ZeroAddress`, the default values of address fields and `arg` push arrays that belong to no store:
  the zero address of the constant table (packages/runtime/src/lib/constants.ts:32) and the caller's signature arguments
  (packages/runtime/src/runtime.ts:551). The deep copy that a group works on does not include them, a put stores them by
  reference, and `setbit` and `setbyte` write into them, so a group that throws can change what the store holds.
  `DepthAtomicity` proves when it does, `SharedArrays` and `LedgerTexts` carry a property of shared arrays from operators to
  groups, and `TealReferences` and `LedgerReferences` say which stored values are shared arrays.
- **TEAL.** `Teal` says what each operator does, `TealRun` gives the recursive semantics and the loop that refines it,
  `TealFrames`, `TealRange`, `TealSchema`, `TealStorage` and `TealAliasing` say what runs can and cannot do. `Bits` relates the
  string-based bit operators and the wide arithmetic to arithmetic. `Tokenizer` and `Parser` cover the source text and its cost.
- **Objects.** The classes `Stack`, `Interpreter`, `AccountStore`, `Store`, `Ctx` and `Runtime` update their fields step by
  step as the program does, and `SharedBytes` holds the arrays that all of them share; each method is proved to agree with the
  specification above, so the run theorems are theorems about `Runtime.ExecuteTx`.
- **Contracts.** `ContractStates` holds application state and the life cycle of calls; `NftContract`, `VotingContract` and
  `WhitelistContract` prove what the contracts count over whole runs; `ContractViews` proves that this state is what the
  ledger's operators read and write.
- **Tasks.** `Tasks` has the task builder's invariant and the positional-argument parser that relies on it; `NamedArguments` the
  parser of named arguments and flags, and `ArgumentNames` how names are written.

Where code and documentation disagree the model follows the code: closing to oneself drops what is left, destroying an
asset leaves other holders' minimum balances raised, a failing clear program keeps its writes, a stored zero reads as
absent (`TealStorage`), `getbit` indexes an unpadded string, and `setbit` and `setbyte` write through shared arrays, past the
rollback of a group that throws. Where such a behaviour breaks a law, the law is proved with the exact condition under which it holds.

`dafny verify dfyconfig.toml` checks everything. Clocks, hashes, signatures and encodings are parameters.

## Model

| member | source | states |
|---|---|---|
| `AssetConservation.AssetConservationOverRuns` | packages/runtime/src/ctx.ts:275-380 | after every run of groups from fresh accounts: every holding belongs to a live asset and names its creator, creators still hold their live assets, and the holdings of a live asset sum to its total minus exactly the units that close-outs to their own sender lost |
| `AssetConservation.HoldingsSumToTotal` | packages/runtime/src/ctx.ts:275-310 | over every run from fresh accounts, the holdings of a live asset sum to exactly its total if and only if no transaction that the run committed closed it out to its own sender with units left |
| `AssetConservation.TransactConservesIff` | packages/runtime/src/ctx.ts:296-308 | from every reachable store: a transaction that succeeds conserves an asset if and only if it does not close that asset out to its own sender while the sender holds more than it sends away |
| `AssetLoss.SelfCloseOutLosesUnits` | packages/runtime/src/ctx.ts:296-308 | such a close-out does happen: a run from fresh accounts in four groups with fees of 1000 creates an asset of ten units, moves four of them to an account and closes that out to itself; the last group commits and six units are left |
| `AssetConservation.SurplusOverRuns` | packages/runtime/src/ctx.ts:275-380 | the same law for runs from any state of the invariant, not only from fresh accounts |
| `AssetConservation.TransactAssets` | packages/runtime/src/ctx.ts:451-595 | one transaction of any kind keeps the asset index and moves each surplus by exactly the units lost |
| `AssetConservation.DestroyedAssetsWereCollected` | packages/runtime/src/ctx.ts:372-380 | after any run, a destruction succeeds only if every holding but the creator's is empty |
| `LedgerAssets.DestroyLeavesNothing` | packages/runtime/src/account.ts:249-261 | a successful destruction finds the whole total with the creator, so all other holdings are empty |
| `LedgerAssets.MoveUnitsAssets` | packages/runtime/src/ctx.ts:283-294 | moving units between two holdings conserves every asset, also when both are the same holding |
| `LedgerAssets.CloseUnitsAssets` | packages/runtime/src/ctx.ts:296-308 | a close-out conserves unless it goes to its own sender, and then loses exactly what was left |
| `LedgerAssets.OptInAssets` | packages/runtime/src/ctx.ts:176-191 | opting in keeps the index and every sum |
| `LedgerAssets.AddAssetIndex` | packages/runtime/src/ctx.ts:147-168 | creation makes exactly one more asset live, under an identifier never used before |
| `LedgerAssets.DestroyIndex` | packages/runtime/src/ctx.ts:372-380 | destruction ends exactly one asset and removes all its holdings |
| `MinBalances.ExactMinBalanceOverRuns` | packages/runtime/src/account.ts:172-366 | after every run each account's minimum balance is the base, plus the fee of each holding, plus the schema costs of its created and opted-in applications, plus the fee of every holding that another account's destruction removed |
| `MinBalances.ExcessOverRuns` | packages/runtime/src/account.ts:172-366 | the same law for runs from any state of the ledger invariant |
| `MinBalances.NewAccountKeepsLedger` | packages/runtime/src/runtime.ts:531-539 | an empty account filed at an address not in use keeps the invariant, every excess and every surplus, so runs with such events in between keep the laws |
| `MinBalances.TransactKeepsLedger` | packages/runtime/src/ctx.ts:451-595 | one transaction keeps the whole ledger invariant, and moves each account's excess by exactly the holdings it orphans |
| `MinBalances.NothingGoesNegative` | packages/runtime/src/ctx.ts:36-45 | after every run no balance and no holding is negative and no minimum balance is below the base |
| `MinBalances.DestroyExcess` | packages/runtime/src/ctx.ts:377-379 | destroying an asset repays only its creator |
| `MinBalances.PaymentSolvent` | packages/runtime/src/ctx.ts:124-139 | a payment that passes its check leaves no negative balance |
| `LedgerApps.AppKindKeeps` | packages/runtime/src/ctx.ts:204-260 | application calls, whatever their programs do, change no account's excess and keep the application index right in both directions |
| `LedgerApps.FinishAppIndex` | packages/runtime/src/ctx.ts:230-236 | moving a new application from index 0 to its own index keeps the index right |
| `LedgerApps.LeaveAppExcess` | packages/runtime/src/account.ts:353-366 | leaving an application gives back exactly what opting in took |
| `LedgerApps.RemoveAppExcess` | packages/runtime/src/account.ts:337-350 | deleting an application gives back exactly what creating it took |
| `AlgoConservation.MicroAlgosAccountedFor` | packages/runtime/src/ctx.ts:451-595 | a committed group takes out of the total balance exactly its fees and what payments closed to their own sender leave behind, whatever TEAL it runs |
| `AlgoConservation.MicroAlgosConservedIff` | packages/runtime/src/ctx.ts:133-138 | from every reachable store: total before = total after + fees if and only if no payment of the group closes to its own sender |
| `AlgoConservation.SelfCloseCommits` | packages/runtime/src/ctx.ts:133-138 | such a payment does commit: one account with 301000 microAlgos pays a fee of 1000, closes to itself, and the other 300000 are gone |
| `AlgoConservation.NewAccountTotal` | packages/runtime/src/runtime.ts:531-539 | an empty account at a new address leaves the total alone |
| `AlgoConservation.PaymentTotal` | packages/runtime/src/ctx.ts:124-139 | a payment conserves the total for every coincidence of sender, receiver and close-to except closing to the sender |
| `AlgoConservation.BurnedPositive` | packages/runtime/src/ctx.ts:129-138 | closing to oneself always loses at least the minimum balance |
| `LedgerFrames.AppKindFrame` | packages/runtime/src/ctx.ts:472-513 | application calls never touch microAlgos, asset definitions or holdings |
| `LedgerFrames.AppKindAfterRun` | packages/runtime/src/ctx.ts:472-513 | an application transaction that succeeds has run exactly one program, and then did at most one thing more: leave, remove, replace the programs or take its index |
| `LedgerTexts.TransactTexts` | packages/runtime/src/ctx.ts:421-439 | a test that all programs of the ledger pass and that a transaction's new programs pass is passed by all programs after it |
| `TealFrames.RunFrame` | packages/runtime/src/interpreter/interpreter.ts:169-187 | a whole TEAL run, even a failing one, changes only byte arrays and key-value maps of existing applications |
| `TealFrames.StepOnlyHeap` | packages/runtime/src/interpreter/interpreter.ts:110-120 | only the four put and delete operators write application state |
| `Roles.BlankForever` | packages/runtime/src/lib/asa.ts:133-144 | a blank manager, reserve, freeze or clawback address is blank after every run |
| `Roles.BlockedForever` | packages/runtime/src/ctx.ts:514-552 | once a role is blank every later group fails that modifies or destroys without a manager, freezes without a freeze address, or revokes without a clawback address |
| `Roles.UnmanagedForever` | packages/runtime/src/ctx.ts:514-552 | an asset without a manager is never destroyed and no part of its definition changes in any run |
| `Roles.TransactGivenUp` | packages/runtime/src/ctx.ts:514-552 | one transaction leaves a given-up role given up and does not succeed if it needs that role |
| `Roles.SetRolesKeepBlank` | packages/runtime/src/lib/asa.ts:133-144 | a legal modification leaves every blank role blank |
| `FrozenHoldings.FrozenUnits` | packages/runtime/src/ctx.ts:275-380 | in any step a frozen holding's amount moves by exactly what a revocation moves, it thaws only by a freeze transaction that says so, and it disappears exactly by its owner's close-out or the destruction of the asset |
| `FrozenHoldings.FrozenThroughGroup` | packages/runtime/src/ctx.ts:48-56 | a group none of whose transactions thaws or removes a frozen holding moves it by exactly what its revocations move, whatever else it does |
| `FrozenHoldings.FrozenOverRuns` | packages/runtime/src/ctx.ts:275-380 | the same over whole runs: unless a committed transaction thaws it, closes it out or destroys its asset, a frozen holding stays frozen and its amount is the old one plus the sum of what committed revocations moved |
| `FrozenHoldings.TransferFrozen` | packages/runtime/src/ctx.ts:275-310 | transfers respect frozen holdings for all coincidences of sender, receiver and close-to |
| `SchemaRuns.SchemaLimitsOverRuns` | packages/runtime/src/ctx.ts:493-506 | after every run from fresh accounts in which no committed group holds a spoiling clear call, each global map and each opted-in local map fits its schema |
| `SchemaRuns.PutsNothingSpoilsNothing` | packages/runtime/src/ctx.ts:493-506 | a clear call whose program has no put operator never spoils a limit |
| `SchemaRuns.OneIntegerOffendsIff` | packages/runtime/src/interpreter/opcode-list.ts:1829-1837 | a program that puts one integer into the global state fails the schema check if and only if the schema has no room for it |
| `SchemaRuns.ClearWithOneIntegerSpoils` | packages/runtime/src/ctx.ts:493-506 | a clear call with that program, under a global schema without integers, commits and leaves the limit broken |
| `SchemaRuns.ClearSucceedsIff` | packages/runtime/src/ctx.ts:493-506 | whatever its program does, a clear call succeeds if and only if the application exists and the sender is in it |
| `SchemaRuns.TransactFits` | packages/runtime/src/ctx.ts:493-506 | a transaction keeps all schema limits if and only if it is not a clear call whose program fails the schema check on a write outside the local state that the call removes |
| `SchemaRuns.LeaveAppRepairs` | packages/runtime/src/account.ts:353-366 | leaving an application repairs exactly a breach in the local state it removes |
| `SchemaRuns.RunOffends` | packages/runtime/src/account.ts:89-137 | a run that ends in a schema error breaks the limits at the place of its last write and nowhere else |
| `TealSchema.RunFits` | packages/runtime/src/account.ts:89-137 | a run keeps the limits if and only if it does not end in a schema error, because pairs are stored before they are checked |
| `TealSchema.RemovalFits` | packages/runtime/src/lib/stateful.ts:12-20 | deleting keys never breaks a schema |
| `AtomicGroups.GroupIsSequence` | packages/runtime/src/runtime.ts:578-607 | a group of secret-key transactions that runs no TEAL commits if and only if it has at most 16 members and its transactions, executed alone in order, all commit; the final stores are equal, and the empty group commits a deep copy |
| `AtomicGroups.PlainTransact` | packages/runtime/src/ctx.ts:451-595 | without TEAL a transaction cannot see the rest of its group |
| `LedgerRuns.RunLaw` | packages/runtime/src/runtime.ts:578-607 | an invariant and a potential of single transactions that do not look at byte arrays carry over to runs, a failing group changing neither |
| `LedgerRuns.RunLawFor` | packages/runtime/src/runtime.ts:578-607 | the same for runs whose committed transactions pass a test, when the law holds for those only |
| `LedgerRuns.RunTallyZeroExactly` | packages/runtime/src/runtime.ts:578-607 | a weight that is nowhere negative sums to zero over a run exactly when it is zero on every committed transaction |
| `LedgerRuns.BlockedGroupFails` | packages/runtime/src/ctx.ts:451-460 | one transaction that fails in every state of an invariant fails its whole group |
| `TealRun.LoopRefinesRecursion` | packages/runtime/src/interpreter/interpreter.ts:126-186 | the loop with its forward jumps and label skipping ends on every program and computes the recursive semantics that jumps to the first later matching label |
| `TealRun.LabelsAreNoOps` | packages/runtime/src/interpreter/interpreter.ts:130-135 | skipping to the end of a run of labels changes nothing |
| `TealRun.VisitedIncreasing` | packages/runtime/src/interpreter/interpreter.ts:173-179 | every instruction is executed at most once |
| `TealRun.FindLabel` | packages/runtime/src/interpreter/interpreter.ts:126-142 | the first position at or after a given one that carries the label, or none if there is none |
| `TealRun.EndOfLabels` | packages/runtime/src/interpreter/interpreter.ts:130-135 | the last position of the run of labels around a position |
| `TealRun.MachinesEnd` | packages/runtime/src/interpreter/interpreter.ts:173-179 | the last machine of the loop is the one the recursive semantics ends in |
| `TealRange.RunInRange` | packages/runtime/src/interpreter/opcode.ts:25-40 | for programs without `~` and with in-range constants, on in-range inputs: after every turn of the loop, every integer on the stack, in scratch space, among the constants and in stored application state is a uint64 and the stack holds at most 1000 entries; so does whatever a failing run leaves |
| `TealRange.RunInRangeIff` | packages/runtime/src/interpreter/opcode.ts:25-40 | for every program: all machines of a run are in range if and only if no instruction from which it goes on is a `~` or has a constant out of range |
| `RangeRuns.RangeOverRuns` | packages/runtime/src/runtime.ts:578-607 | after every run from fresh accounts that together hold at most 2^64 - 1 microAlgos, with programs and inputs in range: every balance, minimum balance, holding, asset total and integer in application state is a uint64 |
| `RangeRuns.RangeKeptByRuns` | packages/runtime/src/ctx.ts:451-595 | the same law for runs from any state of its invariant, which is the ledger invariant with the range and programs that keep it |
| `RangeRuns.BoundsComplete` | packages/runtime/src/ctx.ts:36-45 | no balance exceeds the total of all balances and no holding its asset's total, so the bounds kept one account at a time make every number a uint64 |
| `TealRange.StepInRange` | packages/runtime/src/interpreter/opcode-list.ts:96-103 | one operator that is not `~` and has in-range constants keeps the invariant, whether it goes on, jumps, ends the program or fails |
| `TealRange.StepInRangeIff` | packages/runtime/src/interpreter/opcode-list.ts:44-2586 | one operator keeps the invariant if and only if it is such an operator or does not let the program go on |
| `TealRange.OpInRangeIff` | packages/runtime/src/interpreter/opcode-list.ts:278-337 | over all machines in range: an operator always keeps the range if and only if it is not `~` and its constants are in range, or it is a constant block that is empty or has more than 256 entries |
| `TealRange.ProgramInRangeIff` | packages/runtime/src/interpreter/interpreter.ts:169-187 | over all machines in range and all positions: a program always keeps the range if and only if its text has only such operators |
| `TealRange.BitwiseInRange` | packages/runtime/src/interpreter/opcode-list.ts:366-430 | bitwise operators stay within 64 bits |
| `TealRange.ComplementLeavesRange` | packages/runtime/src/interpreter/opcode-list.ts:448-452 | on every machine in range on which `~` goes on, the integer it pushes is negative |
| `TealRange.IntcblockLeavesRange` | packages/runtime/src/interpreter/opcode-list.ts:278-337 | an `intcblock` with a constant that is no uint64 is accepted, and `intc` pushes that constant |
| `TealAliasing.DupThenSetByte` | packages/runtime/src/interpreter/opcode-list.ts:1050-1056 | after `dup` and `setbyte` the lower copy shows the change, so it is unchanged exactly when the byte written was already there |
| `TealAliasing.WriteIsShared` | packages/runtime/src/interpreter/opcode-list.ts:2315-2323 | a write through a reference is seen by all copies of that reference and by nothing else |
| `TealStorage.LocalGetAfterPut` | packages/runtime/src/interpreter/opcode-list.ts:1675-1690 | after a local put of v, the `_ex` read of that key pushes v and a flag that is 1 if and only if v is not the integer 0 |
| `TealStorage.GlobalGetAfterPut` | packages/runtime/src/interpreter/opcode-list.ts:1748-1769 | the same for global state |
| `TealStorage.LocalPutElsewhere` | packages/runtime/src/account.ts:89-106 | a local put changes no other key, application or account |
| `TealStorage.GlobalPutElsewhere` | packages/runtime/src/account.ts:128-137 | a global put changes no other key or application |
| `Bits.SetBitIntCorrect` | packages/runtime/src/interpreter/opcode-list.ts:2290-2325 | `setbit` on a uint64 gives a uint64 with bit i changed to the given value and every other bit kept |
| `Bits.GetBitIntExact` | packages/runtime/src/interpreter/opcode-list.ts:2346-2365 | `getbit` answers if and only if the index is below the value's digit count, and then with the arithmetic bit; otherwise that bit is zero |
| `Bits.GetBitIntFails` | packages/runtime/src/interpreter/opcode-list.ts:2353-2355 | a concrete read that fails although the bit exists: bit 3 of 4 |
| `Bits.GetAfterSetInt` | packages/runtime/src/interpreter/opcode-list.ts:2290-2365 | what `getbit` can read after `setbit` is the written bit or the old one |
| `Bits.GetBitBytesCorrect` | packages/runtime/src/interpreter/opcode-list.ts:2356-2364 | `getbit` on bytes reads the most significant bit first |
| `Bits.GetAfterSetBytes` | packages/runtime/src/interpreter/opcode-list.ts:2307-2325 | for all in-range indices, the bit read after a write is the written one at that index and the old one elsewhere |
| `Bits.ParseBinaryStr` | packages/runtime/src/lib/parsing.ts:249-258 | the power-sum loop computes the value of the binary string |
| `Bits.SetBitOfInt` | packages/runtime/src/interpreter/opcode-list.ts:2290-2306 | `setbit` on an integer by way of the padded string and the loop |
| `Bits.BinaryValueBits` | packages/runtime/src/lib/parsing.ts:249-258 | the digits of a binary string are the arithmetic bits of its value |
| `Bits.BitwiseAt` | packages/runtime/src/interpreter/opcode-list.ts:366-430 | bitwise and, or and exclusive or act on each bit separately |
| `Bits.MulwExact` | packages/runtime/src/interpreter/opcode-list.ts:997-1011 | high·2^64 + low = a·b with both halves in range, so neither overflow check fires |
| `Bits.AddwExact` | packages/runtime/src/interpreter/opcode-list.ts:965-979 | carry·2^64 + sum = a + b with carry 0 or 1 |
| `Tokenizer.WordsFromLine` | packages/runtime/src/parser/parser.ts:169-249 | the scanning loop with its string, base64 and comment modes computes the words of the line |
| `Tokenizer.NormalForm` | packages/runtime/src/parser/parser.ts:169-249 | for every line: joining the words with single spaces and tokenizing again gives the same words if and only if the last character before the comment that is not a blank is not other white space |
| `Tokenizer.NormalFormWithoutComment` | packages/runtime/src/parser/parser.ts:169-249 | so it always does on a line without a comment, whatever its white space |
| `Tokenizer.NormalFormFailsAtTab` | packages/runtime/src/parser/parser.ts:193-202 | a line that fails: a tab directly before the comment stays in the word |
| `Tokenizer.NormalFormSpacesOnly` | packages/runtime/src/parser/parser.ts:169-249 | on lines whose only white space is the space character it always does |
| `Tokenizer.WordsAreOrderedSlices` | packages/runtime/src/parser/parser.ts:169-249 | each word is a non-empty slice of the trimmed line, and the slices are in order and apart |
| `Parser.ParseProgram` | packages/runtime/src/parser/parser.ts:367-390 | the loop over lines computes version, gas and instructions, or the first line's error, or the cost error |
| `Parser.GasIsTotalCost` | packages/runtime/src/parser/parser.ts:260-313 | the gas collected line by line is the summed cost of the instructions returned |
| `Parser.VisitedCost` | packages/runtime/src/lib/constants.ts:239-261 | what a run from a position executes costs at most the instructions from there on |
| `Parser.StaticGasBoundsDynamicCost` | packages/runtime/src/parser/parser.ts:316-336 | for every accepted program the cost of any run is at most the gas, hence at most 20000 in signature and 700 in application mode |
| `Stacks.Stack.Push` | packages/runtime/src/lib/stack.ts:17-22 | appends an entry, or overflows at capacity and changes nothing |
| `Stacks.Stack.Pop` | packages/runtime/src/lib/stack.ts:24-29 | removes and returns the top, or fails on an empty stack |
| `Stacks.Stack.PopInt` | packages/runtime/src/interpreter/opcode.ts:70-78 | the popped entry, if it is an integer |
| `Stacks.Stack.PopRef` | packages/runtime/src/interpreter/opcode.ts:86-94 | the popped entry, if it is a byte array |
| `Interpreters.Interpreter.constructor` | packages/runtime/src/interpreter/interpreter.ts:35-46 | a new interpreter has an empty stack, 256 zeroes in scratch space and no constants |
| `Interpreters.Interpreter.ExecDig` | packages/runtime/src/interpreter/opcode-list.ts:2451-2461 | by way of a temporary stack pushes the entry at a depth and leaves the rest in place |
| `Interpreters.Interpreter.GetAccount` | packages/runtime/src/interpreter/interpreter.ts:75-89 | the account that an index denotes, or the error |
| `Interpreters.Interpreter.GetAppOwner` | packages/runtime/src/ctx.ts:111-121 | the creator of an application that exists, or the error |
| `Interpreters.Interpreter.GetAssetDef` | packages/runtime/src/interpreter/interpreter.ts:50-58 | an asset definition if the asset still exists |
| `Interpreters.Interpreter.ExecLocalPut` | packages/runtime/src/interpreter/opcode-list.ts:1793-1806 | stores the pair in the account object and then checks the schema; on failure the state left is the one the semantics says |
| `Interpreters.Interpreter.ExecGlobalPut` | packages/runtime/src/interpreter/opcode-list.ts:1829-1837 | the same for global state |
| `Interpreters.Interpreter.JumpForward` | packages/runtime/src/interpreter/interpreter.ts:126-142 | the loop stops at the end of the first later matching run of labels, or reports the label missing |
| `Interpreters.Interpreter.ExecReturn` | packages/runtime/src/interpreter/opcode-list.ts:1503-1512 | empties the stack down to its last value and ends the program |
| `Interpreters.Interpreter.ExecPlain` | packages/runtime/src/interpreter/opcode-list.ts:44-2586 | every operator but the branches, each with its own pops, checks, pushes and errors in the order of the code: machine, state left and error are those of one step of the semantics, also when it fails half-way; `arg` and `global ZeroAddress` push the caller's and the table's own arrays |
| `Interpreters.Interpreter.WriteBytes` | packages/runtime/src/interpreter/opcode-list.ts:2387-2396 | a write changes one array where it is, also one that other stores and programs share |
| `Interpreters.Interpreter.ExecBranch` | packages/runtime/src/interpreter/opcode-list.ts:1398-1482 | branches set the instruction index as one turn of the recursive loop says |
| `Interpreters.Interpreter.ExecuteInstruction` | packages/runtime/src/interpreter/interpreter.ts:173-179 | one turn of the loop: machine, index, state and error are those of the semantics |
| `Interpreters.Interpreter.RunInstructions` | packages/runtime/src/interpreter/interpreter.ts:173-179 | the whole loop computes the recursive semantics, on success and on failure |
| `Interpreters.Interpreter.FinalVerdict` | packages/runtime/src/interpreter/interpreter.ts:180-186 | passes exactly when one positive integer is left on the stack |
| `Interpreters.Interpreter.Execute` | packages/runtime/src/interpreter/interpreter.ts:169-187 | parsing, running and the verdict together; the store is left as the semantics says even when the program fails |
| `Stores.AssertValidSchema` | packages/runtime/src/lib/stateful.ts:12-20 | the counting loop passes exactly the maps that fit the schema |
| `Stores.CheckAndSetASAFields` | packages/runtime/src/lib/asa.ts:133-144 | the loop over the four roles refuses to set a blank one and otherwise sets what is given |
| `Stores.AccountStore.constructor` | packages/runtime/src/account.ts:40-59 | a new account has its balance, the base minimum balance and nothing else |
| `Stores.AccountStore.AddAsset` | packages/runtime/src/account.ts:178-198 | the creator gets the definition and every unit, unfrozen, and a higher minimum balance, unless at the limit |
| `Stores.AccountStore.ModifyAsset` | packages/runtime/src/account.ts:205-212 | changes the roles of a definition the account has |
| `Stores.AccountStore.CloseAsset` | packages/runtime/src/account.ts:218-229 | removes the holding and its share of the minimum balance |
| `Stores.AccountStore.SetFreezeState` | packages/runtime/src/account.ts:236-243 | sets the flag of a holding and nothing else |
| `Stores.AccountStore.DestroyAsset` | packages/runtime/src/account.ts:249-261 | removes definition and holding if the account holds the whole total |
| `Stores.AccountStore.AddApp` | packages/runtime/src/account.ts:272-291 | stores an application with empty state and raises the minimum balance by its schema, unless at the limit |
| `Stores.AccountStore.OptInToApp` | packages/runtime/src/account.ts:294-318 | an empty local state and a higher minimum balance; opting in again changes nothing |
| `Stores.AccountStore.OptInToASA` | packages/runtime/src/account.ts:321-334 | the holding and a higher minimum balance; opting in again changes nothing |
| `Stores.AccountStore.DeleteApp` | packages/runtime/src/account.ts:337-350 | removes an application and its cost |
| `Stores.AccountStore.CloseApp` | packages/runtime/src/account.ts:353-366 | removes a local state and its cost |
| `Stores.AccountStore.SetLocalState` | packages/runtime/src/account.ts:89-106 | stores the pair and reports whether the schema still holds |
| `Stores.AccountStore.SetGlobalState` | packages/runtime/src/account.ts:128-137 | the same for global state |
| `Stores.Store.Clone` | packages/runtime/src/runtime.ts:597-599 | a deep copy: new account objects with the same contents, and new arrays for the shared ones that stored values refer to, one array staying one array |
| `Contexts.Ctx.DeductFee` | packages/runtime/src/ctx.ts:267-272 | takes the fee and requires the minimum balance |
| `Contexts.Ctx.TransferAlgo` | packages/runtime/src/ctx.ts:124-139 | payment and close-out on the account objects agree with the ledger semantics for all coincidences of the three accounts |
| `Contexts.Ctx.AssertAccBalAboveMin` | packages/runtime/src/ctx.ts:36-45 | fails exactly below the minimum balance |
| `Contexts.Ctx.AssertAssetNotFrozen` | packages/runtime/src/ctx.ts:48-56 | fails exactly on a frozen or missing holding |
| `Contexts.Ctx.GetAssetHolding` | packages/runtime/src/ctx.ts:94-104 | a holding, or which of account and holding is missing |
| `Contexts.Ctx.GetAssetDef` | packages/runtime/src/ctx.ts:83-87 | a definition with its creator, or the error |
| `Contexts.Ctx.FindApp` | packages/runtime/src/ctx.ts:111-121 | an application with its creator, or the error |
| `Contexts.Ctx.AddAsset` | packages/runtime/src/ctx.ts:147-168 | creation under the next identifier, index entry last |
| `Contexts.Ctx.OptIntoASA` | packages/runtime/src/ctx.ts:176-191 | an empty holding with the default flag |
| `Contexts.Ctx.TransferAsset` | packages/runtime/src/ctx.ts:275-310 | checks, move and close-out in the code's order, with its errors |
| `Contexts.Ctx.MoveUnits` | packages/runtime/src/ctx.ts:353-364 | debit and credit of two holdings that may be the same |
| `Contexts.Ctx.ModifyAsset` | packages/runtime/src/ctx.ts:514-522 | only by the manager |
| `Contexts.Ctx.FreezeAsset` | packages/runtime/src/ctx.ts:523-530 | only by the freeze address |
| `Contexts.Ctx.RevokeAsset` | packages/runtime/src/ctx.ts:531-544 | only by the clawback address and without close-out |
| `Contexts.Ctx.DestroyAsset` | packages/runtime/src/ctx.ts:372-380 | only by the manager; the loop deletes the holding from every account |
| `Contexts.Ctx.DeleteHoldings` | packages/runtime/src/ctx.ts:376-379 | the loop over all accounts removes one asset's holdings and nothing else |
| `Contexts.Ctx.Run` | packages/runtime/src/runtime.ts:617-620 | running a program in the context: verdict and state are those of the semantics, also when it fails |
| `Contexts.Ctx.BeginApp` | packages/runtime/src/ctx.ts:208-225 | the application under index 0 |
| `Contexts.Ctx.FinishApp` | packages/runtime/src/ctx.ts:227-236 | the move to the next index |
| `Contexts.Ctx.AddApp` | packages/runtime/src/ctx.ts:204-245 | creation with the program run in between |
| `Contexts.Ctx.CallApp` | packages/runtime/src/ctx.ts:472-477 | the approval program of an application that exists |
| `Contexts.Ctx.JoinApp` | packages/runtime/src/ctx.ts:254-258 | the opt-in itself, before the program |
| `Contexts.Ctx.OptInToApp` | packages/runtime/src/ctx.ts:253-260 | joins before the program runs |
| `Contexts.Ctx.CloseApp` | packages/runtime/src/ctx.ts:407-412 | leaves an application that exists |
| `Contexts.Ctx.DeleteApp` | packages/runtime/src/ctx.ts:386-400 | removes an application and its index entry |
| `Contexts.Ctx.UpdateApp` | packages/runtime/src/ctx.ts:421-439 | replaces both programs after the old one approved |
| `Contexts.Ctx.ClearApp` | packages/runtime/src/ctx.ts:493-506 | leaves whatever the clear program's verdict, keeping its writes |
| `Contexts.Ctx.ValidateLsigAndRun` | packages/runtime/src/runtime.ts:547-569 | signature checks in order, then the program in signature mode with the caller's own argument arrays; also when it fails, the shared arrays are as its run left them |
| `Contexts.Ctx.ProcessAssetKind` | packages/runtime/src/ctx.ts:468-571 | each asset kind goes to its operation |
| `Contexts.Ctx.ProcessAppKind` | packages/runtime/src/ctx.ts:472-513 | each application kind runs and updates in the code's order; also when it fails, the shared arrays are as its program left them |
| `Contexts.Ctx.ProcessTransaction` | packages/runtime/src/ctx.ts:451-595 | fee, signature and kind of one transaction; also when it fails, the shared arrays are as its programs left them |
| `Contexts.Ctx.ProcessTransactions` | packages/runtime/src/ctx.ts:451-595 | the loop over a group agrees with the group semantics and stops at the first error; also then the shared arrays are as the programs up to it left them |
| `Runtimes.Runtime.ExecuteTx` | packages/runtime/src/runtime.ts:578-607 | error, new store and shared arrays are those of the group semantics; on failure the store is the same object; in either case no field of the old store and none of its account objects has changed, so that only the shared arrays can have |
| `Runtimes.Runtime.ValidateTxRound` | packages/runtime/src/runtime.ts:131-139 | passes exactly the groups whose rounds all contain the current one |
| `Runtimes.Runtime.CreateTxnContext` | packages/runtime/src/runtime.ts:278-304 | encodes the group in order, or refuses a too large one or an unknown asset name |
| `Runtimes.Runtime.InitializeAccounts` | packages/runtime/src/runtime.ts:259-271 | files every account and enters its applications and assets |
| `Runtimes.Runtime.constructor` | packages/runtime/src/runtime.ts:36-59 | a runtime over the given accounts, at round 2 and timestamp 1 |
| `Runtimes.FreshAccountsMakeFreshStore` | packages/runtime/src/runtime.ts:259-271 | fresh accounts make a fresh store, the start of every run theorem |
| `Runtimes.Runtime.GetLogicSig` | packages/runtime/src/runtime.ts:531-539 | puts an empty account at the signature's address |
| `DepthAtomicity.ThrowRollsBackIff` | packages/runtime/src/runtime.ts:594-606 | a group that throws rolls back accounts, indices, values and the store's own arrays; what the store holds is then the same, byte for byte, if and only if no shared array that it refers to has changed |
| `DepthAtomicity.OldStoreStaysIff` | packages/runtime/src/runtime.ts:594-606 | for every group: the arrays that the store before it refers to stay unchanged if and only if the group changes no byte of a shared array among them |
| `DepthAtomicity.ThrowChangesStore` | packages/runtime/src/interpreter/opcode-list.ts:1566-1574 | a throwing group does change the store: after a group that stores `global ZeroAddress`, a group that writes a byte into it and ends in `err` throws, leaves every account as it was, and the stored value has changed |
| `DepthAtomicity.StoreCommits` | packages/runtime/src/account.ts:128-137 | the first of these groups commits the table's own array as a value |
| `DepthAtomicity.SpoilThrows` | packages/runtime/src/interpreter/opcode-list.ts:2387-2396 | the second throws, and the table's array has the new byte |
| `DepthAtomicity.QuietThrowRollsBack` | packages/runtime/src/runtime.ts:594-606 | if no program that a group can run has a `setbit` or `setbyte`, a group that throws leaves the store exactly as it was |
| `DepthAtomicity.DetachedThrowRollsBack` | packages/runtime/src/runtime.ts:594-606 | if the store refers to no shared array, a group that throws leaves all that it holds, whatever programs run |
| `DepthAtomicity.ZeroAddressIsOneArray` | packages/runtime/src/lib/constants.ts:32 | `global ZeroAddress` pushes one array: after `global ZeroAddress; global ZeroAddress; int 0; int v; setbyte` the two entries are still equal |
| `SharedArrays.StepKeepsShared` | packages/runtime/src/interpreter/opcode-list.ts:44-2586 | no operator but `setbit` and `setbyte` changes a shared array |
| `SharedArrays.StepKeepsLengths` | packages/runtime/src/interpreter/opcode-list.ts:2277-2396 | no operator changes how many shared arrays there are or how long they are |
| `SharedArrays.AfterShared` | packages/runtime/src/runtime.ts:578-607 | committed or not, a group leaves the shared arrays as its programs left them |
| `SharedArrays.CallKeepsArrays` | packages/runtime/src/runtime.ts:578-607 | what every program that a group can run keeps of the shared arrays, the whole group keeps, committed or not |
| `SharedArrays.CallKeepsLengths` | packages/runtime/src/runtime.ts:578-607 | no group changes how many shared arrays there are or how long they are |
| `TealReferences.StepHeld` | packages/runtime/src/interpreter/opcode-list.ts:44-2586 | every operator keeps all references on arrays that exist; one that pushes no shared array keeps a machine without references to shared arrays so |
| `TealReferences.RunHeld` | packages/runtime/src/interpreter/interpreter.ts:169-187 | the same for whole runs of programs, also failing ones |
| `LedgerReferences.CopyHasSameContents` | packages/runtime/src/runtime.ts:597 | the deep copy that a group starts from holds the same contents under the same keys |
| `LedgerReferences.ReferencesExist` | packages/runtime/src/runtime.ts:578-607 | after every run from fresh accounts every stored reference points to an array that exists, and the copy that the next group works on has the same contents and refers to no shared array |
| `LedgerReferences.ClosedGroupDetaches` | packages/runtime/src/runtime.ts:597-606 | a committed group none of whose programs pushes a shared array leaves a store that refers to none, whatever the store before it referred to |
| `LedgerReferences.ClosedRunsRollBack` | packages/runtime/src/runtime.ts:578-607 | after every run from fresh accounts whose programs push no shared array, any group that throws, whatever its own programs do, leaves all that the store holds as it was, byte for byte |
| `ContractViews.GlobalPutIsPut` | packages/runtime/src/interpreter/opcode-list.ts:1829-1837 | `app_global_put` on the ledger succeeds exactly when the contracts' model stores the value, and then the ledger, seen as application state, is what the model says |
| `ContractViews.LocalPutIsPut` | packages/runtime/src/interpreter/opcode-list.ts:1793-1806 | the same for `app_local_put` |
| `LocalSchemas.LocalsAgreeOverRuns` | packages/runtime/src/account.ts:294-318 | over every run from fresh accounts, every local state of an application that exists has the layout of that application's own schema |
| `LocalSchemas.StepAgrees` | packages/runtime/src/account.ts:89-106 | no operator of a running program changes that |
| `ContractViews.GlobalGetIsGet` | packages/runtime/src/interpreter/opcode-list.ts:1713-1724 | `app_global_get` pushes what the model reads; absent keys and stored zeroes read as zero |
| `ContractViews.LocalGetIsGet` | packages/runtime/src/interpreter/opcode-list.ts:1640-1655 | the same for `app_local_get` |
| `ContractViews.JoinIsJoin` | packages/runtime/src/account.ts:294-318 | opting in acts on the application state as the model's life cycle says |
| `ContractViews.LeaveIsLeave` | packages/runtime/src/account.ts:353-366 | leaving succeeds exactly when it does in the model, with the same result |
| `NftContract.AtMostOneHolder` | examples/nft/assets/nft_approval.py:56-90 | after every run from deployment each token has at most one holder and only issued tokens are held |
| `NftContract.CreateEffect` | examples/nft/assets/nft_approval.py:56-71 | creation issues an identifier nobody can hold yet and gives it to the caller |
| `NftContract.TransferEffect` | examples/nft/assets/nft_approval.py:79-90 | a transfer takes the token from its one holder; afterwards the receiver holds it and nobody else does, and no other token and no global value changes |
| `NftContract.BigEndianRoundTrip` | examples/nft/assets/nft_approval.py:41 | identifiers of different numbers differ, because the number can be read back |
| `NftContract.CreateNft` | examples/nft/assets/nft_approval.py:56-71 | the steps of creation, in order, on the stored state |
| `NftContract.TransferNft` | examples/nft/assets/nft_approval.py:79-90 | the steps of a transfer, in order |
| `VotingContract.TallyCountsVotes` | examples/permissioned-voting/assets/permissioned-voting-approval.py:40-90 | after every run each tally is the number of opted-in accounts that voted for the candidate plus its voters who left by a clear call or after the end of the vote |
| `VotingContract.WithdrawalAlwaysSucceeds` | examples/permissioned-voting/assets/permissioned-voting-approval.py:40-46 | withdrawing never underflows: in every reachable state every opted-in account can close out |
| `VotingContract.VoteEffect` | examples/permissioned-voting/assets/permissioned-voting-approval.py:69-90 | a vote raises the chosen tally by one and marks its voter, who cannot vote again; every other global value, the other voters and all other local state stay the same |
| `VotingContract.OnVote` | examples/permissioned-voting/assets/permissioned-voting-approval.py:69-90 | the steps of a vote, in order |
| `VotingContract.OnCloseOut` | examples/permissioned-voting/assets/permissioned-voting-approval.py:40-46 | the steps of a withdrawal |
| `WhitelistContract.CounterCountsWhitelist` | examples/permissioned-token/assets/permissions.py:68-131 | after every run the counter is the number of whitelisted opted-in accounts plus those that left by a clear call |
| `WhitelistContract.CloseOutAlwaysSucceeds` | examples/permissioned-token/assets/permissions.py:118-131 | the decrement never underflows: in every reachable state a well-formed close-out of an opted-in account succeeds |
| `WhitelistContract.AddEffect` | examples/permissioned-token/assets/permissions.py:68-87 | whitelisting raises the counter by one and marks the account exactly when it was not marked; no other value changes, and doing it again changes nothing |
| `WhitelistContract.AddToWhitelist` | examples/permissioned-token/assets/permissions.py:68-87 | the steps of whitelisting, counter first |
| `WhitelistContract.OnCloseOut` | examples/permissioned-token/assets/permissions.py:118-131 | the steps of a close-out |
| `Tasks.SimpleTaskDefinition.constructor` | packages/algob/src/internal/core/tasks/task-definitions.ts:43-55 | an empty definition is well formed |
| `Tasks.SimpleTaskDefinition.AddParam` | packages/algob/src/internal/core/tasks/task-definitions.ts:89-145 | files a named parameter, or reports the first failing check and changes nothing |
| `Tasks.SimpleTaskDefinition.AddFlag` | packages/algob/src/internal/core/tasks/task-definitions.ts:176-191 | files a flag |
| `Tasks.SimpleTaskDefinition.AddPositionalParam` | packages/algob/src/internal/core/tasks/task-definitions.ts:209-269 | appends a parameter and keeps names distinct, any variadic last and no mandatory after an optional; or reports the first failing check and changes nothing |
| `Tasks.SimpleTaskDefinition.AddVariadicPositionalParam` | packages/algob/src/internal/core/tasks/task-definitions.ts:301-365 | the same for a variadic parameter |
| `Tasks.SimpleTaskDefinition.AddPositionalParamDefinition` | packages/algob/src/internal/core/tasks/task-definitions.ts:398-409 | appends a checked definition and keeps the two flags and the name set true of the list |
| `Tasks.ParsePositionalParamArgs` | packages/algob/src/internal/cli/arguments-parser.ts:251-292 | the loop over the definitions, with the first error it meets |
| `Tasks.ParseSucceedsIff` | packages/algob/src/internal/cli/arguments-parser.ts:251-292 | on well-formed definitions parsing succeeds if and only if there are enough arguments, not too many unless the last parameter is variadic, and each argument parses |
| `Tasks.EachRawUsedOnce` | packages/algob/src/internal/cli/arguments-parser.ts:251-292 | a successful parse names every parameter once, and the parameters' values put together are the parsed raw arguments in order |
| `ArgumentNames.ReadsBackIff` | packages/algob/src/internal/cli/arguments-parser.ts:17-52 | a name is read back from the argument it is written as if and only if it has no dash and does not start with an upper-case letter, which every parameter's name satisfies |
| `ArgumentNames.JoinIsDashed` | packages/algob/src/internal/cli/arguments-parser.ts:17-25 | splitting at upper-case letters, lowering and joining writes each upper-case letter as a dash and a lower-case one |
| `ArgumentNames.PartsAreUndashed` | packages/algob/src/internal/cli/arguments-parser.ts:34-52 | splitting at dashes and capitalizing reads each dash as an upper-case letter, and fails on a dash that no character follows |
| `NamedArguments.ParseRawArguments` | packages/algob/src/internal/cli/arguments-parser.ts:135-163 | the loop with its moving index computes the named arguments and the raw positional ones, or the first error |
| `NamedArguments.AddTaskDefaultArguments` | packages/algob/src/internal/cli/arguments-parser.ts:180-198 | missing optional parameters get their defaults in order, a missing mandatory one is the error |
| `NamedArguments.ParseTaskArguments` | packages/algob/src/internal/cli/arguments-parser.ts:118-133 | named arguments, defaults and positional arguments in order, with the first error |
| `NamedArguments.EveryParameterFilled` | packages/algob/src/internal/cli/arguments-parser.ts:118-133 | a parse that succeeds gives every parameter of the task an argument and nothing else |
| `NamedArguments.BuiltTaskNames` | packages/algob/src/internal/core/tasks/task-definitions.ts:398-483 | no task that the builder builds has a parameter with a name that every object has, so the results here hold for all of them |
| `NamedArguments.WriteThenRead` | packages/algob/src/internal/cli/arguments-parser.ts:135-163 | arguments that a task accepts, with no name twice, written out in any order and mixed with positional ones, are read back exactly: each name with its value, and the positional ones in order |

## Left out

- Encoding of transactions, addresses, hashes and signature verification: library code; they are function parameters of the model (`Env`), and an encoded transaction is a record.
- Fees, payment amounts and asset amounts of transactions are natural numbers, as the encoding library requires of its callers.
- Opcode tables, label and field name tables, and the constructors that decode operators' immediate arguments: parameters of the parser model.
- `assetNameInfo` and `appNameInfo`, which record names and transaction identifiers and are never read by a transaction.
- The direct calls `Runtime.addAsset`, `optIntoASA`, `addApp`, `optInToApp` and `updateApp`: they reuse whatever context was left behind, so the run theorems are about `executeTx`.
- `getLogicSig` is not an event of the modelled runs: at an address in use it replaces the account. At a new address it keeps every law of the runs (`MinBalances.NewAccountKeepsLedger`, `AlgoConservation.NewAccountTotal`).
- Byte arrays are indexed in two heaps that stack elements refer to: a store's own, and the shared ones, which are the constant table's zero address and the arrays that callers pass as signature arguments. All of a run's argument arrays exist from its start, and callers do not write into them between groups. Arrays that a caller reads out of a store through getters and passes back as arguments are not modelled, nor are writes into the store through them.
- The tables' empty default array is a new empty array here: nothing can be written into it.
- ArgumentNames.ReadsBackIff: case conversion is that of ASCII letters.
- Holdings, definitions and applications are values in the maps of an account object, not objects of their own.
- Conversions of big integers to floating-point numbers in indices and identifiers are exact in the model.
- `Stack.debug`, printing, warnings and error texts.
- Transaction kinds and fields that only the encoding library checks.
- The contracts are modelled from their PyTeal sources as steps on application state; the TEAL that PyTeal compiles them to is not in the repository. Update and delete calls of the voting, permissions and token contracts are not events of their runs.
- The other example contracts, deployment scripts, the node, key-store, compile and checkpoint code of the command line: input and output, or plain conjunctions of checks.
- The command line's own options before the task name (`parseRuntimeArgs`) and their short forms.
- Bits.GetBitIntExact: `getbit` on an integer fails at and above the value's digit count although the bit there is zero; the lemma gives the exact condition and `Bits.GetBitIntFails` a case.
- TealRange.RunInRange: excludes `~` and out-of-range `intcblock` constants, which the code does not check; `TealRange.RunInRangeIff` gives the exact condition, and `TealRange.ComplementLeavesRange` and `TealRange.IntcblockLeavesRange` the cases.
- Tokenizer.NormalForm: a comment directly after white space other than a blank leaves that white space at the end of the last word; the lemma gives the exact condition on the line and `Tokenizer.NormalFormFailsAtTab` a case.
