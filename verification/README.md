# A verified model of the RGB standard library

This project models the client-side-validation contract engine in Dafny and proves what its steps keep. It
covers the witness tables and their reorganisations, the state shown to a wallet, the builder of operations
and payments, the consignment stream, and the text form of witness outputs. `dafny verify dfyconfig.toml`
checks all of it.

| file | module | what it models |
|---|---|---|
| Wrappers.dfy | Wrappers | options, results, machine integers |
| Status.dfy | Status | the status of a witness, its order, its eight bytes |
| Seals.dfy | Seals | identifiers, seals, anchors and their merge |
| Pile.dfy | Piles | the six tables of `PileFs` as a class, and the same tables as a value |
| Reorg.dfy | Reorg | what a sync does to statuses and validity, and its algebra |
| Runs.dfy | Runs | runs of calls, inclusions and syncs against what the ledger believes |
| History.dfy | History | the state shown to a wallet, and the documented max-min formula |
| IndexMaps.dfy | IndexMaps | insertion-ordered maps |
| Contract.dfy | Contracts | `Contract` and the ledger it drives, as classes |
| StateCalc.dfy | StateCalcs | state calculators under an assumed law |
| Requests.dfy | Requests | operation requests and `check_request` |
| Invoice.dfy, Base64.dfy | Invoices, Base64 | witness outputs, printed and parsed |
| PrintedSample.dfy | PrintedSample | the printed form of one witness output |
| Fulfill.dfy | Fulfilment | `fulfill` |
| Payments.dfy | Payments | seals of a payment, as payer and as payee |
| Prefab.dfy | Prefabs | the outputs and seals of one operation |
| Conservation.dfy | Conservation | what an operation spends, cell by cell, against what it pays out |
| Blanks.dfy | Blanks | the blank request of a contract |
| Wallet.dfy | Wallets | `prefab` and `bundle`, as methods of a wallet class |
| Inclusion.dfy | Inclusions | `include` of a bundle, and the contracts' side of it |
| PaymentValue.dfy | PaymentValue | what a payment spends against what it pays out |
| TwoWitnesses.dfy, PaidTwice.dfy, SharedSeal.dfy, Overflow.dfy | TwoWitnesses, PaidTwice, SharedSeals, Overflowing | concrete wallets in which the builder goes wrong |
| Codec.dfy, Consignment.dfy | Codecs, Consignments | the stream layout and its two readers |
| WholeConsignment.dfy | WholeConsignments | a whole consignment as written, and what each reader makes of it |
| Export.dfy | Exports | what a contract exports of an operation |
| SampleLayout.dfy | SampleLayouts | a layout that meets everything assumed of the codecs |

Two forms stand side by side. Code that updates fields is a class (`PileFs`, `Contract`, `Ledger`,
`RgbWallet`, `OpReader`, `InMemOps`) or a method with loops, each proved against a function or relation on
values; the properties of whole runs, streams and bundles are lemmas about those functions and relations.

## What is assumed

Nothing is taken as an axiom. What the code calls but does not contain is a function parameter, and the law
it has to meet is written in the `requires` of the members that need it:

- `ListsAncestors`: the ancestor iterator of the ledger yields exactly the history of an operation, with or
  without the operation itself, in any order and with repetitions. The history is an acyclic graph.
- `Lawful`: a state calculator adds up values, refuses what does not fit, and splits a remainder into data
  that add up to it, into none at zero. Values are multisets, so sums and sets of tokens are both instances.
- `ExactSelection`: a coin selection accumulates exactly what it returns.
- `ConsistentCells`: entries of the contract state with one address have one name and one data. This is
  weaker than distinct addresses, which fails for cells shown once per witness.
- `Readable`, `Written`, `HeaderWritten`, `SharedLayout`: decoding undoes encoding and takes something off the
  stream, for the codecs of operations, seals and witnesses and of the fields of the header, whose layouts are
  defined elsewhere, and genesis shares the layout of operations. `SampleLayouts.SampleMeetsAll` gives a layout
  that meets all four.
- `TextForm.Assumed`: the same of an address, which has no second encoding; `Invoices.PlainAddressMeets` gives
  one. A witness output is `Printable` when it fits the buffer of 255 bytes, without which printing panics.
- Bounded collections hold 65535 entries and, once full, refuse every insertion, also under a key they have. The
  seal map and the defined outputs of an operation (`AddOutput`) and the seals read from a stream (`Extend`) are
  all of this kind.

The order of statuses is stated on ranks (`quasi_height`), which holds for every status. Where equality or
validity of a status is concluded, heights are `Regular`: below 2^64 - 3.

## What the model found

- `best` is not commutative at the reserved constants (`Status.HeightMaxMakesOrderMatter`; exactly when is
  said by `Status.BestCommutes`), and the byte form reads back exactly on regular heights
  (`Status.DecodeAfterEncode`).
- A `sync` whose rollback fails returns after updating the tables in memory. Ledger and tables then disagree on
  exactly the operations that flipped, and trying the same list again does nothing
  (`Runs.FailedRollbackDrifts`, `Runs.RetryDoesNotRepair`).
- The list at tests/reorgs.rs:46-51 is meant as an idempotence check. On a witness that is already off-chain
  it archives the witness, and a second pass undoes that (`Reorg.AlternatingListIsNotIdempotent`); a list is
  idempotent exactly when it gives one status to each known witness (`Reorg.SyncIdempotent`).
- `include` does not tell the ledger about validity. When all witnesses of an operation are archived and a
  replacement is included, the tables call the operation valid while the ledger keeps it rolled back, and
  later syncs do not repair it (`Runs.ReplacementRunDisagrees`, `Runs.ForgottenIsNotForwarded`). The ledger
  is right throughout a run if and only if no inclusion flips its operation (`Runs.RunSafety`).
- Two operations of one contract that close a common output have anchors that do not merge, and `include`
  panics on the second. Including a bundle succeeds exactly when its outputs are spent, the commitment has its
  leaves, and no two operations of one contract share an output (`Inclusions.IncludeSucceedsIff`). Blank
  operations never do; requested ones can: `bundle` builds such a bundle, which nobody can include
  (`SharedSeals.BuildShared`, `SharedSeals.SharedCannotBeIncluded`).
- A `bundle` that fails midway leaves its earlier operations called (`Wallets.RgbWallet.Bundle` says what the
  contracts are then).
- When `include` of a bundle fails at one operation, the operations before it have already been included
  (`Inclusions.Include`).
- Entries for one cell under two witnesses are summed twice by `check_request` and become one input. The
  operation then pays out more than it spends: when both outputs of a cell are spent, its blank operation has
  one input worth a token and outputs worth two (`TwoWitnesses.BlankPaysTwice`). An operation built for an
  accepted request conserves value exactly when no cell worth something is listed twice
  (`Conservation.ConservesIff`), and so whenever no address is (`Conservation.DistinctConserves`).
- `fulfill` compares the allocations it adds with the selection alone, so that a cell shown on two of the selected
  outputs is added twice, and the operation pays it out twice (`PaidTwice.PayWithFour`, `PaidTwice.PaysTwice`). It
  lists no address twice when the selection does not and no cell has two allocations on the selected outputs
  (`PaymentValue.SpendingListsOnce`).
- The `expect` at src/popls/bp.rs:619 can fail. With explicit outputs only it does exactly when there are more
  than 65535 and the first 65535 define fewer than 65535 distinct transaction outputs
  (`Prefabs.ExplicitOutputs`), as with 65536 payments to one output, for which the check accepts a request
  (`Overflowing.BuildManyOutputs`); in general, on an explicit output that finds 65535 truncated positions taken
  (`Prefabs.BuildOutputs`).
- A count of 2^32 - 1 in a stream is the reader's own mark for "before genesis" and puts it back there
  (`Consignments.CountOfAllOnes`); every smaller count is exact (`Consignments.BodyRoundTrip`).
- The streaming reader accepts a first operation with inputs or with a witness, the in-memory reader does
  not, and only the latter replaces the id in genesis (`Consignments.ReadersAgree`,
  `Consignments.SameOperationsIff`).
- The checksum of a witness output uses the second byte of its hash twice (invoice/src/bp.rs:78-86).

## Model

| member | source | states |
|---|---|---|
| Status.RankCollisions | src/pile.rs:85-93 | two statuses have one rank exactly when equal or when a mined height takes a reserved constant |
| Status.RankingChain | src/pile.rs:74-100 | genesis is best, then a lower mined height before a higher one, all regular heights before off-chain, then tentative, then archived, which alone is not valid |
| Status.Ties | src/pile.rs:102-116 | of two statuses of one rank best takes the second and worst the first |
| Status.BestCommutes | src/pile.rs:95-116 | best and worst do not depend on the order of two statuses exactly when these are equal or differ in rank, which fails at the reserved constants alone |
| Status.RegularOrder | src/pile.rs:95-116 | on regular statuses best and worst are commutative, and one is always the min and the other the max |
| Status.FoldsIgnoreOrder | src/contract.rs:389-396 | folding statuses in another order or with repetitions gives the same rank, and the same status on regular ones |
| Status.BestIsValid | src/contract.rs:389-396 | an operation is valid exactly when one of its witnesses is |
| Status.WorstIsValid | src/contract.rs:470-478 | a fold with worst is valid exactly when everything folded is |
| Status.HeightMaxMakesOrderMatter | src/pile.rs:85-108 | counterexample: at height 2^64 - 1 the order of the witnesses decides validity |
| Status.DecodeAfterEncode | src/pile.rs:119-139 | stored statuses read back exactly when the height is regular, and always with the same rank |
| Status.EncodeAfterDecode | src/pile.rs:119-139 | every eight bytes are the form of the status they decode to |
| Status.FirstBytes | src/pile.rs:133-139 | genesis is stored as eight bytes of all ones, height one as one less |
| Status.LastBytes | src/pile.rs:133-139 | archived is stored as zeros, tentative as one, off-chain as two |
| Status.BytesFollowOrder | src/pile.rs:133-139 | a status is better exactly when its bytes are lexicographically greater |
| Piles.LookupsDefined | persistence/fs/src/pile.rs:107-125 | in valid tables every witness of the index is in hoard, cache and mine, and index and stand list the same pairs: no lookup behind `has_witness` can fail |
| Piles.AddWitnessValid | persistence/fs/src/pile.rs:144-159 | adding a witness keeps the four witness tables on one key set and index and stand inverse with equal multiplicity |
| Piles.OpStatusIsBest | src/contract.rs:389-396 | the status of an operation is that of one of its witnesses and no witness is better; without witnesses it is genesis |
| Piles.SealsReadBack | persistence/fs/src/pile.rs:129-169 | seals added for a new operation read back as the same map, and those of other operations are untouched |
| Piles.DescribesRecord | persistence/fs/src/pile.rs:181-188 | the record of a witness has its stored contents and exactly the operations indexed under it |
| Piles.PileFs.AddWitness | persistence/fs/src/pile.rs:144-159 | each of the tables afterwards: a known witness keeps its status, the anchor is overwritten, both relations gain one entry |
| Piles.PileFs.AddSeals | persistence/fs/src/pile.rs:161-169 | seals are put under the addresses of the operation and nothing else changes |
| Piles.PileFs.UpdateWitnessStatus | persistence/fs/src/pile.rs:171-177 | one status changes and nothing else |
| Piles.PileFs.CommitTransaction | persistence/fs/src/pile.rs:179-179 | the statuses on disk become those in memory |
| Piles.PileFs.SealsOf | persistence/fs/src/pile.rs:129-142 | the loop collects exactly the seals of positions below the limit |
| Piles.PileFs.Witnesses | persistence/fs/src/pile.rs:181-188 | every known witness is listed once, with its contents and exactly its operations |
| Piles.PileFs.OpRelations | persistence/fs/src/pile.rs:190-195 | the witnesses of an operation are exactly those that list it |
| Reorg.TargetMeaning | src/contract.rs:529-545 | the status recorded for a witness is that of the last effective entry listed for it, and none is recorded without one |
| Reorg.NoConflictTarget | src/contract.rs:540-544 | when the assertion on conflicting statuses holds, every effective entry takes effect |
| Reorg.SyncOverrides | src/contract.rs:529-564 | a known witness listed with one status has that status afterwards |
| Reorg.SyncKeepsUnlisted | src/contract.rs:529-564 | a witness that is not listed keeps its status |
| Reorg.UntouchedStatus | src/contract.rs:547-556 | an operation none of whose witnesses changed keeps its status |
| Reorg.SyncedValid | src/contract.rs:558-564 | a sync keeps the tables valid |
| Reorg.SyncIdempotent | src/contract.rs:525-593 | repeating a sync changes nothing, with empty sets, if and only if each known witness is listed with one status |
| Reorg.AlternatingListIsNotIdempotent | tests/reorgs.rs:46-51 | counterexample: a list with two statuses for one witness archives it and the next pass undoes that, unnoticed by the assertion |
| Reorg.SyncUndo | src/contract.rs:525-593 | syncing back restores the tables and swaps the two sets |
| Reorg.SyncIgnoresOrder | src/contract.rs:529-545 | permuting or repeating the entries of a consistent list changes nothing |
| Reorg.SyncSplit | src/contract.rs:525-593 | splitting a list by disjoint witnesses, or consistently, gives the same statuses |
| Reorg.SplitSyncIsOneSync | src/contract.rs:525-593 | and the same net set of live operations |
| Contracts.FlipsAreAffected | src/contract.rs:547-556 | every operation whose status changes is among those under the changed witnesses |
| Contracts.FlipSets | src/contract.rs:566-581 | filtering the affected operations finds all operations that flip, in both directions |
| Contracts.Contract.SanitizeChanges | src/contract.rs:529-545 | step 1 records the last effective status of each known witness and notices exactly the conflicting lists |
| Contracts.Contract.AffectedOps | src/contract.rs:547-556 | step 2 finds exactly the operations under the affected witnesses, once each, with their status before |
| Contracts.Contract.UpdateStatuses | src/contract.rs:558-564 | step 3 overrides the statuses of the affected witnesses only |
| Contracts.Contract.Partition | src/contract.rs:566-581 | step 4 splits the operations that flipped by direction, without repetition |
| Contracts.Contract.Sync | src/contract.rs:525-593 | incremental equals full recompute: statuses as specified, `roll_back` and `forward` exactly the operations that flipped, and what memory, ledger and disk hold after each failure |
| Contracts.Contract.Commit | src/contract.rs:583-592 | step 5: what the ledger and the disk hold when either ledger call fails |
| Contracts.Contract.SyncStep | src/contract.rs:525-593 | a sync is the sync step of a run |
| Contracts.Contract.SyncUnheard | src/contract.rs:583-592 | a sync whose rollback fails updates the tables and neither ledger nor disk |
| Contracts.Contract.Call | src/contract.rs:601-612 | the operation and its seals are stored, nothing else changes, and for a new operation this is the call step of a run |
| Contracts.Contract.Include | src/contract.rs:616-638 | the tables after any inclusion whose anchor merges, committed; for an operation of the ledger it is the inclusion step of a run |
| Contracts.Contract.Retrieve | src/contract.rs:398-410 | a witness is exported exactly for an operation that has one and is valid, and it is one with the best status |
| Contracts.Contract.CachedStatus | src/contract.rs:463-469 | an entry of the operation cache equals a fresh computation |
| Contracts.Contract.GetStatus | src/contract.rs:470-478 | an entry of the ancestor cache equals a fresh computation |
| Contracts.Contract.ShownState | src/contract.rs:462-516 | the doubly memoised state: owned state under the names of the ledger's owned state and immutable under those of its global state, each name with the entries of its cells in order and their uncached statuses, and the aggregated state as it is |
| Contracts.Contract.OwnedEntries | src/contract.rs:483-503 | the entries of owned state in order: one for an explicit seal, one per witness for a relative one, none without a seal |
| Runs.FailedRollbackDrifts | src/contract.rs:583-592 | after a failed rollback ledger and tables disagree on exactly the operations that flipped |
| Runs.FailedForwardDrifts | src/contract.rs:583-592 | after a failed forward, on exactly the operations that became valid |
| Runs.RetryDoesNotRepair | src/contract.rs:529-592 | repeating the list changes nothing and leaves all of the disagreement |
| Runs.StepKeepsGood | src/contract.rs:525-638 | every step of a run keeps the tables valid and the ledger's operations known |
| Runs.IncludeFlips | src/contract.rs:616-638 | an inclusion changes the validity of its own operation only, exactly when all its witnesses were archived and the new one is not, or it had none and the new one is |
| Runs.SyncDrift | src/contract.rs:525-593 | a sync never creates disagreement between ledger and tables and settles it for what it flips |
| Runs.IncludeDrift | src/contract.rs:616-638 | an inclusion toggles disagreement about its operation exactly when it flips it |
| Runs.RunSafety | src/contract.rs:525-638 | over any run from an agreeing state, the ledger holds the valid operations at every point if and only if no inclusion flips |
| Runs.QuietRunEndsInStep | src/contract.rs:525-638 | after a run without flipping inclusions the ledger holds exactly the valid operations |
| Runs.AnchorsOnlyGrow | src/contract.rs:616-638 | after any run each stored anchor extends the earlier one |
| Runs.ReplacedWitnessIsForgotten | src/contract.rs:616-638 | including a replacement for archived witnesses leaves a valid operation rolled back in the ledger |
| Runs.ForgottenIsNotForwarded | src/contract.rs:566-592 | no later sync takes such an operation back while it stays valid |
| Runs.ReplacementRunDisagrees | src/contract.rs:525-638 | from every agreeing state a run of four legal steps ends in disagreement |
| History.StatusFormula | src/contract.rs:128-138 | the status shown is the maximum over the history of the minimum over witnesses |
| History.WitnessStatusFormula | src/contract.rs:493-501 | a copy under one witness takes that witness for its own operation and the minimum for the others |
| History.AncestorOrderIrrelevant | src/contract.rs:470-478 | order, repetitions and the operation itself among the ancestors make no difference, for operations and for copies under a witness |
| History.DescendantsAreNoBetter | src/contract.rs:470-478 | no element or copy is shown better than an operation in its history |
| History.ImprovingWitnesses | src/contract.rs:389-396 | improving witnesses worsens no status shown, of an operation or of a copy under a witness |
| History.AddingWitness | src/contract.rs:616-638 | adding a witness to an operation that has one worsens no status shown before, of an operation or of a copy |
| History.ElementValidIffHistoryValid | src/contract.rs:462-516 | an element is shown valid exactly when its whole history is; a copy exactly when its witness and the rest of the history are |
| History.ShownValidIffHistoryLive | src/contract.rs:462-593 | in step with the ledger, an element is shown valid exactly when the ledger holds its whole history, and a copy when moreover its witness is valid |
| History.OwnedOfCells | src/contract.rs:483-503 | an entry is shown exactly when it is one of the entries of some cell |
| History.CellShown | src/contract.rs:483-503 | the seals, noise and statuses shown for one cell, by the kind of its seal: one entry, one per witness, or none |
| History.OwnedShown | src/contract.rs:462-516 | under each name of the state shown there is, up to statuses of one rank, exactly what its cells call for: one entry under an explicit seal with the maximum over the history of the minimum over witnesses, or one for each witness |
| History.ImmutableShown | src/contract.rs:504-513 | entry i of immutable state has the address and data of cell i and the rank of the documented formula, and aggregated state is unchanged |
| History.OwnedOfParts | src/contract.rs:483-503 | the entries of several cells follow one another in the order of the cells |
| StateCalcs.FeedStep | src/popls/bp.rs:549-567 | accumulating one more succeeds exactly while everything so far is countable and fits, and then the calculators hold its totals |
| StateCalcs.DrawStep | src/popls/bp.rs:568-577 | taking one more away succeeds exactly while what is taken is covered, name by name |
| StateCalcs.EmptyDiff | src/popls/bp.rs:578-582 | the difference is empty exactly when nothing is held |
| Requests.CheckRequest | src/popls/bp.rs:542-584 | accepted if and only if inputs exist and can be valued and outputs equal inputs under every name, however names interleave; else the error is the one of what goes wrong first: the first input that cannot be used, else the first output that cannot be covered, else the first name, in order, with a remainder |
| Requests.EarlyFailureIsFinal | src/popls/bp.rs:549-567 | a failure on the first inputs is a failure of all of them |
| Requests.FaultIsUnique | src/popls/bp.rs:549-582 | only one thing goes wrong first, and nothing does with an acceptable request |
| Requests.FaultMeans | src/popls/bp.rs:549-582 | `NotEnoughChange` names a state exactly when all inputs and outputs go through and it is the first with a remainder, which can be expressed; a cell is unknown exactly when the inputs before it can be used |
| Requests.NoRemainder | src/popls/bp.rs:578-582 | the calculators are all empty exactly when inputs and outputs balance |
| Requests.LocateEntry | src/popls/bp.rs:550-558 | looking an entry up by its address finds its name and data |
| Requests.LocatesFirst | src/popls/bp.rs:550-558 | an address is looked up under the first name, in order, that has it, and the first entry there counts |
| Fulfilment.ExtendSelection | src/popls/bp.rs:486-502 | the other allocations on the selected outputs are added in order, unless their address was selected or they cannot be accumulated |
| Fulfilment.OwnCellsInOrder | src/popls/bp.rs:426-439 | the coin selection is offered the entries on the wallet's outputs, each once, in their order |
| Fulfilment.Fulfill | src/popls/bp.rs:452-538 | fails exactly when something is missing, or the value invoiced cannot be counted, exceeds what is spent or leaves an indivisible remainder; else the request is made by the call the invoice names, or the default one, its first output is the invoiced value, owned under the invoice's token or by its witness output with the giveaway, it passes the check, the entries it lists are worth the invoiced value plus change, and it spends exactly the selection and what the loop adds to it, on selected outputs only and leaving nothing accumulable on them |
| PaymentValue.SpendingListsOnce | src/popls/bp.rs:486-502 | no address is listed twice when the selection lists none twice and no cell has two allocations on the selected outputs |
| PaymentValue.PaymentConservesIff | src/popls/bp.rs:452-641 | the operation built for a payment after its seals are resolved conserves value exactly when no cell worth something is listed twice, and so when no address is |
| PaymentValue.StoredForPayment | src/popls/bp.rs:203-241 | a change output is stored under the change output of the transaction and the wallet's noise for its position, a witness output under the output that pays to its script and the noise of its salt, and a token stays itself |
| PaymentValue.PayeeFindsSeal | src/popls/bp.rs:282-299 | the payee of an invoice finds its seal in the request `fulfill` built for it, and it is the one the payer stores for the first output |
| PaidTwice.PayWithFour | src/popls/bp.rs:486-538 | counterexample: a cell shown on two selected outputs is listed twice, and the request passes the check |
| PaidTwice.PaysTwice | src/popls/bp.rs:587-641 | the operation of that payment pays out a token more than its cells are worth |
| Payments.ResolveOutputs | src/popls/bp.rs:210-230 | succeeds exactly when every change output has a change output of the transaction and every witness output one for its script; then change becomes that output without a noise, a witness output its output with the noise of its salt, a token itself, keeping order, names and data; else fails on the first, as change or with its script |
| Payments.ResolveSeals | src/popls/bp.rs:203-241 | the same for a whole payment |
| Payments.ResolutionKeepsBalance | src/popls/bp.rs:203-241 | resolving seals changes nothing the check looks at |
| Payments.ResolveSealFinds | src/popls/bp.rs:282-299 | the payee finds a seal exactly when an output pays to it and its script resolves, and which |
| Payments.PayerAndPayeeAgree | src/popls/bp.rs:203-299 | the seal stored by the payer for an output to a witness output is the one the payee resolves |
| Prefabs.BuildOutputs | src/popls/bp.rs:601-627 | fails exactly on the first explicit output that finds 65535 outputs defined or 65535 positions taken; else, with explicit outputs among the first 65536, the seal map has exactly their positions as keys and output i carries the token of seal i |
| Prefabs.FewOutputsFit | src/popls/bp.rs:608-627 | with at most 65535 outputs it never fails |
| Prefabs.ExplicitOutputs | src/popls/bp.rs:608-627 | with explicit outputs only, the panic at line 619 happens exactly when there are more than 65535 and the first 65535 define fewer distinct transaction outputs |
| Prefabs.OneVoutOverflows | src/popls/bp.rs:608-627 | counterexample: 65536 explicit outputs to one transaction output |
| Prefabs.AddOutputMatches | src/popls/bp.rs:608-627 | one more output keeps cells, defined outputs and seals aligned |
| Prefabs.InputsCountedOnce | src/popls/bp.rs:594-640 | an operation has as many inputs as used entries exactly when no address is used twice |
| Prefabs.LastSatisfies | src/popls/bp.rs:594-600 | of the entries with one address the last gives the satisfaction of the input |
| Prefabs.SealsDiffer | src/popls/bp.rs:608-627 | outputs without a noise have different seals at different positions, if the noise of the wallet differs |
| Conservation.CellsAndRepeats | src/popls/bp.rs:549-567 | the sum of the check is the worth of the cells listed and, for each repetition, of the repeated ones again |
| Conservation.PaysOutRepeats | src/popls/bp.rs:587-641 | an operation built for an accepted request pays out what its cells are worth and what the repeated ones are worth again |
| Conservation.ConservesIff | src/popls/bp.rs:587-641 | it conserves value under every name exactly when no cell worth something is listed twice |
| Conservation.DistinctConserves | src/popls/bp.rs:587-641 | it does when no address is listed twice |
| Blanks.BlankRequest | src/popls/bp.rs:679-739 | there is a blank request exactly when the contract has an allocation on a spent output; it uses the entries on the spent outputs, each once and in the order of the contract state, passes the check and gives all to the change output; it fails exactly when the totals cannot be valued, held or paid to a change output |
| Blanks.AffectedInOrder | src/popls/bp.rs:679-692 | the allocations taken up are those of the entries on the spent outputs, one for each entry, in the order of names and then of entries |
| Blanks.BlankMoves | src/popls/bp.rs:679-739 | its operation has every allocation on the spent outputs as an input, closes no other output, defines no output but change, and pays out what the allocations listed are worth under every name |
| Blanks.BlankConservesIff | src/popls/bp.rs:679-739 | that is what its inputs are worth exactly when no cell worth something has two entries on the spent outputs; the request lists no address twice exactly when no cell has two such entries at all, and then value is conserved |
| TwoWitnesses.BlankPaysTwice | src/popls/bp.rs:672-755 | counterexample: a cell with two witnesses, both outputs spent: the check accepts the blank request, its one input is worth a token, its outputs two |
| Blanks.InputsOfAffected | src/popls/bp.rs:679-695 | looking the affected allocations up again gives their names and data |
| Wallets.RgbWallet.BuildPrefab | src/popls/bp.rs:587-641 | each failure is that of the first check that fails, and changes nothing; on success the outputs found room, the ledger's answer is stored, no other contract is touched, and the seals stored for the new operation read back as built |
| Overflowing.BuildManyOutputs | src/popls/bp.rs:587-627 | counterexample: an accepted request with 65536 outputs to one transaction output, on which building panics whatever the ledger would answer |
| Wallets.RgbWallet.BuildBlanks | src/popls/bp.rs:742-749 | the blank requests all pass the check when their turn comes, and each is called and stored as `prefab` does |
| Wallets.RgbWallet.Bundle | src/popls/bp.rs:654-755 | one pass is complete: the operations of requested contracts are those built from the requests in turn, and every other contract has its single blank operation exactly if it holds state on an output the requests close; each failure has its cause, and a blank operation never fails its check; and what the contracts are afterwards: those of the requests and then of the blank requests called in turn, as far as it got, each with the seals of its operation stored as they were built |
| Wallets.BundleIsComplete | src/popls/bp.rs:654-755 | requested and blank operations together are complete |
| Wallets.EveryOperationIsAccountedFor | src/popls/bp.rs:654-755 | an operation of a bundle is built from a request or is the single blank operation of a contract without one, never both |
| Wallets.RequestsCloseExactly | src/popls/bp.rs:661-669 | the operations of requested contracts close exactly the outputs the requests use |
| Wallets.NothingIsLeftBehind | src/popls/bp.rs:672-755 | every allocation of an unrequested contract on an output the requests close is an input of its single blank operation, which closes no other output |
| Wallets.BlankOfBundleConserves | src/popls/bp.rs:672-755 | the operation of an unrequested contract conserves value exactly when no cell of it worth something has two entries on the outputs the requests close |
| Inclusions.Messages | src/popls/bp.rs:769-776 | with at most 2^32 inputs there is a message for input i exactly when i is the first input to spend an output that is closed, and it commits to the operation; fails exactly on an output that is not spent |
| Inclusions.Include | src/popls/bp.rs:758-788 | the inclusions made and the tables of every contract after them, up to the first operation that fails, with its cause: an output not spent, a missing leaf, or the panic on an anchor that does not merge |
| Inclusions.IncludeSucceedsIff | src/popls/bp.rs:758-788 | under a new witness it succeeds exactly when all operations can be anchored and no two of one contract close the same output |
| SharedSeals.BuildShared | src/popls/bp.rs:654-755 | counterexample: a bundle built by `bundle` whose two operations close one output under one contract |
| SharedSeals.SharedCannotBeIncluded | src/popls/bp.rs:758-788 | such a bundle cannot be included under a new witness, whatever the witness commits to |
| Inclusions.MergeIff | src/popls/bp.rs:777-783 | two anchors of one contract merge exactly when their operations are the same or close no output in common |
| Inclusions.TakenIff | src/contract.rs:616-638 | a contract takes inclusions under one witness exactly when their anchors merge with what is stored and with each other, and the stored anchor then extends each of them |
| Inclusions.LegalIffTaken | src/contract.rs:616-638 | for operations the ledger knows, these are the legal steps of a run, with the same tables after them |
| Inclusions.BundleIncludes | src/popls/bp.rs:758-788 | a bundle can be included under a new witness exactly when no two operations of one contract close the same output, and then every closed output is committed to its operation at the first input that spends it |
| Inclusions.BundleStaysInStep | src/popls/bp.rs:758-788 | including a bundle keeps ledger and tables agreeing if none of its operations had lost all its witnesses |
| Inclusions.BlanksNeverClash | src/popls/bp.rs:672-755 | blank operations of a bundle never close an output twice under one contract |
| Codecs.SkipAgrees | src/contract.rs:742-748 | skipping extension blocks leaves the same stream as decoding them |
| Codecs.ReservedIsAbsent | src/consignment.rs:49-57 | a reserved byte is read where, and only where, an absent value is |
| Codecs.OptionFlags | src/contract.rs:650-655 | no byte but zero and one is taken before an optional value |
| Codecs.ByteOrder | src/contract.rs:742-748 | lengths and counts are stored with the least significant byte first |
| Consignments.FrameRoundTrip | src/contract.rs:640-658 | a written frame reads back as the same operation and witness, with its seals overridden by the resolver |
| Consignments.GenesisIsFirstFrame | src/consignment.rs:59-78 | the in-memory reader takes a first frame exactly when it has neither inputs nor a witness |
| Consignments.CountedFrames | src/contract.rs:820-849 | once a count is read the streaming reader reads exactly that many frames |
| Consignments.ReadersAgree | src/consignment.rs:59-121 | on every stream: what either reader accepts, and that they yield the same sequence and leave the same rest |
| Consignments.SameOperationsIff | src/consignment.rs:93-107 | the sequences are identical exactly when genesis names the id of its own codex |
| Consignments.BodyRoundTrip | src/contract.rs:640-675 | an exported body of fewer than 2^32 - 1 operations reads back as genesis and exactly those operations |
| Consignments.CountOfAllOnes | src/contract.rs:840-846 | counterexample: a count of 2^32 - 1 puts the reader back before genesis |
| WholeConsignments.DecodesWhole | src/consignment.rs:41-78 | a whole consignment, written field by field, is read back by the in-memory reader, and what follows is left |
| WholeConsignments.StreamsWhole | src/contract.rs:730-766 | and the streaming reader yields its genesis and operations from the same bytes, with the seals of the wallet put over theirs |
| Consignments.OpReader.ReadOperation | src/contract.rs:820-849 | one step of the reader, its two fields afterwards, and that the end is final |
| Consignments.InMemOps.ReadOperation | src/consignment.rs:109-122 | yields the pending operations in order, then none |
| Consignments.ReadFrames | src/consignment.rs:69-76 | the loop decodes exactly as many frames as announced |
| Consignments.StrictDecode | src/consignment.rs:59-78 | decodes the header and, if not too many are announced, the operations |
| Exports.ExportOperation | src/contract.rs:640-658 | writes the operation, its stored seals, and a witness with the best status exactly when the operation has one and is valid |
| Exports.CallExportRead | src/contract.rs:601-658 | the seals a contract was called with are read back from its export, overridden by those of the reader |
| SampleLayouts.SampleMeetsAll | src/consignment.rs:49-78 | one layout meets all that is assumed of reading, writing, the header, and genesis |
| Base64.DecodeAfterEncode | invoice/src/bp.rs:89-147 | decoding undoes encoding, for every byte string (sections 4 and 3.2 of RFC 4648) |
| Base64.EncodeAfterDecode | invoice/src/bp.rs:117-147 | only the encoding of a byte string decodes to it (section 3.5 of RFC 4648) |
| Invoices.ParsesIff | invoice/src/bp.rs:117-147 | a string parses to a witness output if and only if this can be printed and the string has the prefix and, dashes removed, is the text printed |
| Invoices.ParseAfterPrint | invoice/src/bp.rs:89-147 | parsing the printed form returns the value, for every salt and every address that can be printed |
| Invoices.ChecksumBytes | invoice/src/bp.rs:78-86 | the checksum is the first, the second, again the second, and the third byte of the hash |
| Invoices.WrongChecksum | invoice/src/bp.rs:140-142 | a value under another checksum than its own is refused for that |
| Invoices.PlainAddressMeets | invoice/src/bp.rs:94-97 | an address layout meets what is assumed, with every value printable |
| Invoices.Print | invoice/src/bp.rs:89-115 | the chunk loop writes the prefix and the text with a dash after every eight characters but the last |
| PrintedSample.PrintedAsExpected | invoice/src/bp.rs:183-191 | the printed form of one value, salt, key and hash given: the text of the unit test |
| Invoices.SerializeRoundTrip | invoice/src/bp.rs:117-147 | bytes that deserialize are the serialization of the result |

## Left out

- The bodies of the ledger (`rollback`, `forward`, `call`, `apply`, `ancestors`, export), of articles and of
  state calculators: they are in other libraries and appear through the laws listed above.
- `evaluate`, and so acceptance of a consignment beyond reading it: not in this repository.
- Hashing, Merkle and deterministic-commitment proofs, noise and tokens: uninterpreted functions.
- Files and on-disk logs: maps; the status table alone has its transaction modelled (`disk`).
- `Contracts` in src/contracts.rs, its lazy caches, stockpiles and lookup by name: easy next to the rest.
- Closure of a payment over other state names of a requested contract: the code does not provide it.
- `RgbWallet::consume`, issuing from wallet parameters, the command line, serde, errors as text: plumbing.
- Ordering of `BTreeSet` elements other than state names: sets are visited in some order, so which of several
  missing outputs an error names is not determined.
- Runs.StepKeepsGood: runs include only operations the ledger knows and call it only for new ones; the code
  looks at neither. `Contracts.Contract.Include` and `Contracts.Contract.Call` are stated for all.
- Inclusions.Include: keeps the tables of the contracts as values instead of driving several contract objects.
- Inclusions.BundleIncludes: stated for transactions with at most 2^32 inputs, which is beyond what a block
  can hold.
- Wallets.RgbWallet.Bundle: assumes `ConsistentCells` of contracts without a request.
- Invoices.Print: the alphabet of letters, digits, `_` and `~` is not spelled out in the repository; it is the
  one in which the value printed by the unit test of invoice/src/bp.rs is written.
