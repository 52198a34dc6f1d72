# Verified model of the mempool backend's core algorithms

This project models, in Dafny, the parts of the mempool backend whose correctness is not visible from reading one
function, and proves what they are for.

- **Package selection** (`PackageGraph`, `Relatives`, `Selection`, `RateCaps`, `Sorting`, `Packaging`, `Families`,
  `Candidates`, `MiniMiner`, `ExactSizes`, `RootRates`, `Mempool`, `TxLists`, `TxEvents`, `LeftOvers`, `TxSelection`,
  `PairingHeap`). Two builders choose packages of unconfirmed transactions by ancestor fee rate: the mini-miner (one
  template, or an unbounded one) and the selection worker (up to eight projected blocks, an overflow list, a heap of
  modified transactions). Both keep cached ancestor totals that are updated as packages are taken.
  `Relatives.AuditPool` is the pool of records with these caches; `Selection` describes a run as a sequence of picks
  and proves what every run guarantees, and `RateCaps` when effective rates respect ancestors. `Families` says what a
  pick is in terms of inputs, fees and sizes alone; `Mempool` and `Candidates` hold what the builders are given, and
  the answers are described in these fields as well (`Mempools.FamiliesPriced` and the predicates beside it,
  `MiniMiner.TemplatePriced`). The builders return a record of every choice they made, taken or refused, and its rules
  (`MiniMiner.Greedy`, `TxEvents.Fair`) say which transaction had to be looked at and what had to become of it;
  `LeftOvers` tells from the worker's record alone who is left behind. `TxLists` holds the worker's queues and
  `PairingHeap` the priority queue behind one of them. `RunSteps` builds runs of the worker step by step for the
  examples, which are concrete mempools (`RateCapExample`, `RootRateExample`, `EarlyStopExample`, `CoverExample`,
  `WorseChoiceExample`, `StaleHeapExample`).
- **The replacement cache** (`RbfTrees`, `RbfIndex`, `RbfRemoval`, `RbfRestore`, `RbfCache`). A forest of replacement
  trees indexed by maps. `RbfIndex.Valid` says that the maps are exactly the index of the forest; the five invariants
  written in the source follow from it, and every operation keeps it. It also keeps the timeline: the time
  and the interval of each replaced transaction lead to the time of what replaced it.
- **Prioritised transactions** (`Prioritization`). The O(n log n) longest sorted subsequence with back-pointers, proved
  optimal over all subsequences, and the classification of what it leaves out.
- **Reorganisations** (`Reorg`). The walk back to the fork, re-pointing the canonical rows of the block table, and the
  rebuilding of the hash-linked block cache.
- **Single-pass fee percentiles** (`FeeStats`), **replacement matching** by nested loops and by lookup table
  (`RbfMatching`), **fast block CPFP** (`FastCpfp`), **projected block deltas** with the client that replays them
  (`BlockDeltas`), and **packed CPFP clusters** (`ClusterPacking`).

Conventions. Transaction ids and block hashes are integers, since the code only compares them (in `ClusterPacking`, where
their digits matter, they are strings). Rates are reals. The clock is a parameter. Fee plus acceleration bid is one field
("fee"). The audit transactions' fields are maps from the transaction to the value, and their flags are sets. A
`dependencyRate` of 0.0 stands for "unset": the code reads the field only where 0 and undefined behave alike. The map
the cache calls `replaces`, and a tree's children, are called `prior`. The dependency graph of a pool is acyclic, ids are
distinct and weights are positive, as in any mempool.

Where the code and what is expected of it part:

- A package rate of zero reads as "unset" in `dependencyRate || Infinity`, so the cap it should impose is forgotten.
  `RateCapExample.TightTemplate` is a pool of two transactions whose template gives a child a rate of 10 on top of a
  parent at 0. With non-negative fees a run respects all caps if and only if no package that pays depends on an earlier
  one that does not (`RateCaps.CapsIffNoFreePackage`), and a pool respects them in whatever order packages are taken if
  and only if no package pays on top of a free transaction (`RateCaps.AlwaysCapped`). The mini-miner's own order never
  breaks one without limits (`MiniMiner.UnboundedCapped`), nor under any limits if every size is exactly a quarter of
  the weight (`ExactSizes.ExactlyCapped`): in the example one was rounded up.
- The mini-miner also caps a package at the fee rate its last member came with, since `dependencyRate` starts from it.
  A template without limits then may report a package below what it pays although no input asks for it.
  `RootRateExample.Diluted` is a template of four candidates with fees of 7 on 6 vbytes that are all reported at 1. For
  every fees and sizes a pool of a given shape may have this never happens if and only if no transaction depends on two
  others that do not depend on each other but on a common third (`RootRates.NeverUndercutIff`).
- A replacement that lists itself among the replaced transactions breaks the cache's invariants, and nothing else does
  (`RbfCaching.RbfCache.Add`).
- The worker resets its failure count only when it takes a package, not when it closes a block. With a block limit below
  8000 an empty block can then count as full, and the loop ends. "Nobody who would fit an empty block is left over" is
  true of every mempool and every run if and only if the limit is at most 4001, where nothing fits, or at least 8000
  (`EarlyStopExample.NobodyStarvesIff`). For every limit in between `EarlyStopExample.StarvedBlocks` is a mempool of more
  than a thousand transactions of which one is taken: one of the others fits no block, the rest would each fit another.
- The worker puts what it held back into its heap without asking whether it is there already. Of two entries only the
  newer one is moved when the score changes. `TxEvents.Calm` is the condition on a run under which this does no harm: no
  package is taken on which a transaction with two entries depends. While it holds each transaction looked at was the
  best one. It holds up to the end of the first block (`TxEvents.FirstBlockGreedy`), and in all of every run of a mempool
  in which no child pays for its parents (`LeftOvers.CalmWithoutPayingChildren`). Without it a worse choice is possible:
  for every limit from 4008 on, `WorseChoiceExample.WorseChosen` is a mempool of four transactions and a run that takes
  one that scores nothing while another one that pays waits. `StaleHeapExample.ReplayWorse` is the heap in that run.
- "If all full packages fit an empty block, the blocks partition the mempool" is true of every mempool and every run if
  and only if the limit is at most 4003 or at least 8000 (`CoverExample.EveryoneTakenIff`). Under any limit it is true of
  the mempools in which no child pays for its parents, and of all calm runs (`LeftOvers.NobodyLeft`). For every limit
  from 4004 to 7999 `CoverExample.ThousandLeft` is a mempool of 1005 transactions and a run that takes five of them.
  `StaleHeapExample.ReplayCover` and `ReplayEnd` are the heap in that run: a transaction that has been taken is at its
  root when the second block has been closed, which is the round the loop ends with.
- Saving a new block that is not stale at a height that has a canonical row leaves two of them
  (`Reorg.SavedUnique` gives the exact condition).
- Reading the fee statistics twice adds a spurious entry exactly when a band is still open (`FeeStats.ReadTwice`).
- `slice(-n)` with n = 0 keeps everything, so with a limit of 0 the rebuilt block cache is not bounded by it
  (`Reorg.Blocks.HandleReorgs` states both cases).
- The two forms of replacement matching agree on every input exactly when no two deleted transactions spend the same
  output (`RbfMatching.FormsAgree`).
- The first segment of a block is never closed by the reverse pass of the fast CPFP estimate: its transactions (the
  coinbase, in practice alone) keep the rates they came with (`FastCpfp.Calculator.ReversePass`).

## Model

| member | source | states |
|---|---|---|
| PackageGraph.AncestryIsDag | backend/src/api/mini-miner.ts:418-435 | the ancestors of an acyclic pool, defined by paths of inputs, are a strict partial order generated by the in-pool inputs |
| Relatives.AuditPool.constructor | backend/src/api/mini-miner.ts:277-306 | the pool starts with empty ancestor maps, no child links and no flags |
| Relatives.AuditPool.SetRelatives | backend/src/api/mini-miner.ts:418-446 | sets exactly the transaction and its unset ancestors: each ancestorMap is the transitive in-pool ancestors, totals and score equal a fresh computation, and nothing else changes but new child links |
| Relatives.AuditPool.InheritInput | backend/src/api/tx-selection-worker.ts:230-243 | one input: inherits the parent and all its ancestors unless the parent was inherited already, in which case no direct child link is made |
| Relatives.AuditPool.SumAncestors | backend/src/api/tx-selection-worker.ts:244-253 | the loop over the ancestors computes the fresh totals and score of the whole package |
| Relatives.AuditPool.SetAll | backend/src/api/mini-miner.ts:320-324 | after setting the whole pool every cache is exact, and every descendant can be reached over child links although some direct links are missing |
| Relatives.TraversalReaches | backend/src/api/mini-miner.ts:479-486 | a traversal of the child links that goes on only from descendants of the root still reaches every descendant |
| Relatives.DropAncestor | backend/src/api/mini-miner.ts:468-473 | subtracting a removed ancestor's share leaves exactly the totals of what remains of the package |
| Relatives.AuditPool.DropFrom | backend/src/api/tx-selection-worker.ts:276-284 | one descendant: the root leaves its ancestorMap and totals and lowers its dependency rate, or nothing changes if the root was not there |
| Relatives.AuditPool.UpdateDescendants | backend/src/api/mini-miner.ts:450-491 | if the caches are exact for the pool without some transactions, they are exact for the pool without the root too; dependency rates are lowered at exactly the descendants; exactly the descendants not waiting in the modified queue are flagged and pushed, each once |
| Relatives.PushUnvisited | backend/src/api/mini-miner.ts:459-464 | pushes exactly the children not seen before, each once |
| Selection.TakenAncestors | backend/src/api/mini-miner.ts:361-386 | after any run the taken transactions are closed under in-pool ancestors |
| Selection.PicksDisjoint | backend/src/api/mini-miner.ts:367-383 | no transaction is taken by two picks |
| Selection.AncestorsComeFirst | backend/src/api/mini-miner.ts:361-383 | an in-pool ancestor of a taken transaction is taken by the same pick or an earlier one |
| RateCaps.RateCap | backend/src/api/mini-miner.ts:365-377 | an emitted transaction's effective rate never exceeds that of one of its in-pool ancestors, unless an earlier pick at rate zero took an ancestor of its package root |
| RateCaps.CapsIffNoneForgotten | backend/src/api/mini-miner.ts:475-475 | for non-negative rates all caps of a run hold if and only if no pick of positive rate has a root that depends on an earlier pick of rate zero |
| RateCaps.ZeroRateMeansFree | backend/src/api/mini-miner.ts:365-365 | with non-negative fees no package rate is negative, and a rate is zero if and only if the package's fees are |
| RateCaps.CapsIffNoFreePackage | backend/src/api/mini-miner.ts:365-365 | with non-negative fees all caps of a run hold if and only if no package that pays depends on an earlier one that does not |
| RateCaps.AlwaysCapped | backend/src/api/mini-miner.ts:475-475 | with non-negative fees a pool respects all caps in whatever order packages are taken if and only if no package pays on top of a free transaction |
| RateCaps.BestFirstCapped | backend/src/api/mini-miner.ts:356-377 | if each package root was the best of all transactions left, all caps hold, zero rates or not |
| RateCaps.PositiveRates | backend/src/api/mini-miner.ts:365-365 | with positive fees every package rate is positive |
| RateCapExample.TightTemplate | backend/src/api/mini-miner.ts:365-365 | for a free parent of 401 weight units and a paying child, with room for their weight but not for four times their vsize, the template gives the parent rate 0 and the child rate 10 |
| RateCapExample.EveryRunBreaksCap | backend/src/api/mini-miner.ts:475-475 | on that pool every run the builder may take breaks a cap |
| Selection.RateTimesSize | backend/src/api/mini-miner.ts:365-377 | a package's rate times its size never exceeds its total fee |
| Sorting.SortBy | backend/src/api/mini-miner.ts:497-504 | the sorted list is a permutation of the input in ascending key order |
| Packaging.SortedPool | backend/src/api/mini-miner.ts:497-504 | the pool in descending order of ancestor score, and in ascending order of the transactions' own order where scores are equal |
| Packaging.SizeOrderIsTopological | backend/src/api/mini-miner.ts:361-363 | sorting the remaining ancestors by how many ancestors they have left, with the root last, puts every ancestor before its descendants and lists exactly what is left of the package |
| Packaging.Assemble | backend/src/api/mini-miner.ts:361-365 | from exact caches, the cluster and the rate are those of a valid pick: the whole remaining package, in dependency order, at the capped rate |
| Packaging.PackageRetired | backend/src/api/mini-miner.ts:386-390 | once the package is retired transaction by transaction, the caches are exact for the pool without all picks so far and each dependency rate is what the picks imply |
| Packaging.PoppingDistinct | backend/src/api/mini-miner.ts:367-383 | popping a cluster emits each of its transactions once |
| Packaging.EmittedOnce | backend/src/api/tx-selection-worker.ts:135-156 | the emitted transactions of any run are the taken ones, each emitted once |
| Families.FamilyPriced | backend/src/api/mini-miner.ts:361-377 | in terms of inputs, fees and sizes: every package is a family (what a member spends of the pool comes earlier in it or was taken before, every member but the last is spent by a later one, nobody is taken twice); its rate never pays more than its fees; if it spends nothing taken before, the rate is the least of what pays exactly its fees and the rate its last member came with; and as long as no rate before was 0, the least of these and the rates of the packages it spends from |
| Families.LeastWithoutLimits | backend/src/api/mini-miner.ts:360-377 | if every root was the best one left and no fee is negative, the rate is the least of the three in every case |
| Candidates.AdjustedVsize | backend/src/api/mini-miner.ts:279-279 | the least whole vsize that covers a quarter of the weight and five times the sigops |
| Candidates.CandidatePool | backend/src/api/mini-miner.ts:277-317 | the pool holds every candidate with the bid of its last acceleration |
| MiniMiner.HeadIsBest | backend/src/api/mini-miner.ts:344-356 | the better of the two queue heads has the best ancestor score of all transactions not taken and not set aside |
| MiniMiner.SelectNext | backend/src/api/mini-miner.ts:344-356 | chooses a best transaction of those neither taken nor set aside, takes it off its queue, and leaves both queues sorted, complete and without repetition |
| MiniMiner.TakeIntoBlock | backend/src/api/mini-miner.ts:367-383 | pops the cluster child-first into the block: transactions, weight and sigops grow by exactly the package |
| MiniMiner.Retire | backend/src/api/mini-miner.ts:386-390 | removes a package from all caches with the modified queue re-sorted after each transaction; exactly its dependents are flagged, those set aside before their first flag are queued again, and the queues stay sorted and complete |
| MiniMiner.MakeBlockTemplate | backend/src/api/mini-miner.ts:273-411 | terminates; the template is the emission of a valid run; each transaction looked at had the best ancestor score of all neither taken nor set aside, was not set aside itself, and was taken exactly if its package fits; the run goes on until everyone is taken or set aside or a thousand packages in a row were refused with the block within 4000 of its limit, and not beyond; weight stays below weightLimit and sigops at most sigopLimit when there is more than one block; with one block the result is a permutation of the candidates; from the candidates' own inputs, fees, bids, weights and sigops: every package is a family at its price, without limits the least of the three, and weight and sigops are within the limits |
| MiniMiner.AsideRefused | backend/src/api/mini-miner.ts:393-397 | who is set aside was looked at as the best one left, and its package did not fit then |
| MiniMiner.LeftOutRefused | backend/src/api/mini-miner.ts:400-406 | unless the run was cut short, everyone left out was looked at as the best one left and did not fit then |
| MiniMiner.UnboundedTakesBest | backend/src/api/mini-miner.ts:360-360 | without limits nobody is refused, every package root is the best of all transactions not taken, and everyone is taken |
| MiniMiner.UnboundedCapped | backend/src/api/mini-miner.ts:360-377 | a template without limits respects all rate caps, given non-negative fees |
| MiniMiner.AllPriced | backend/src/api/mini-miner.ts:361-377 | every package of a run is a family at its price in the candidates' own inputs, fees, bids, weights and sigops; without limits, for fees that are not negative, the price is the least of the three |
| RootRates.NeverUndercut | backend/src/api/mini-miner.ts:365-365 | if no transaction depends on two others that are apart and share an ancestor, a run without limits reports no package below what it pays but for an input taken at that rate |
| RootRates.NeverUndercutIff | backend/src/api/mini-miner.ts:289-290 | for all fees and sizes of a pool of the same shape this holds of every run without limits if and only if there is no such transaction |
| RootRateExample.Diluted | backend/src/api/mini-miner.ts:365-365 | four candidates with fees of 7 on 6 vbytes, which the template without limits reports at a rate of 1 |
| ExactSizes.NeverFits | backend/src/api/mini-miner.ts:360-398 | if every size is exactly a quarter of the weight, whoever was refused is never taken and never fits again, second chances or not |
| ExactSizes.ExactlyCapped | backend/src/api/mini-miner.ts:360-386 | if every size is exactly a quarter of the weight, the template respects all rate caps under any limits, given non-negative fees |
| Mempools.ReadMempool | backend/src/api/tx-selection-worker.ts:42-65 | the audit pool holds every mempool transaction with its fee, weight, sigops, order and inputs, and the rates are those it came with |
| TxLists.SkipInvalid | backend/src/api/tx-selection-worker.ts:103-105 | skips used and modified entries only; nobody is lost from the waiting lists |
| TxLists.SelectNext | backend/src/api/tx-selection-worker.ts:108-120 | the choice leaves the waiting lists complete, in order and strictly shorter; in a calm run it has the best ancestor score of all transactions neither taken nor set aside, and comes before everything left in the heap |
| PairingHeaps.RootIsBest | backend/src/utils/pairing-heap.ts:33-35 | in a heap whose nodes are all live the root is the best element |
| PairingHeaps.MergePairs | backend/src/utils/pairing-heap.ts:135-173 | merging siblings in two passes keeps all entries and the order |
| PairingHeaps.PairingHeap.Add | backend/src/utils/pairing-heap.ts:22-30 | adds one entry and keeps the order |
| PairingHeaps.PairingHeap.Pop | backend/src/utils/pairing-heap.ts:38-46 | removes the root's entry and keeps the order |
| PairingHeaps.PairingHeap.IncreasePriority | backend/src/utils/pairing-heap.ts:77-100 | moves a node whose score has risen to where the order holds again, and keeps all entries |
| PairingHeaps.PairingHeap.DecreasePriority | backend/src/utils/pairing-heap.ts:102-105 | the same for a node whose score has fallen |
| PairingHeaps.PairingHeap.Rescore | backend/src/api/tx-selection-worker.ts:291-297 | after a change of score of an element with one live node the heap is in order for the new scores, stale nodes apart |
| TxSelection.TakeIntoBlock | backend/src/api/tx-selection-worker.ts:135-156 | pops the cluster child-first into the block, adds its weight, and notes the new rate of each member |
| TxSelection.NotedPackage | backend/src/api/tx-selection-worker.ts:127-152 | taken transactions carry their package's rate, exactly those whose rate changed are dirty, and clusters of two or more are recorded under their root |
| TxLists.Requeue | backend/src/api/tx-selection-worker.ts:187-196 | the overflow list goes back to the heap, or in front of the read position over entries already read; nobody is lost, the pool stays in order of score, and the position never becomes negative |
| TxLists.Pushed | backend/src/api/tx-selection-worker.ts:287-298 | once the dependents of a retired transaction are in the heap, nobody is lost and the order of the rest holds for the new scores; unless one of them has two entries, every other entry is still the live node of its transaction; whoever was set aside and is pushed will have two entries when the block is closed |
| TxLists.Leads | backend/src/api/tx-selection-worker.ts:187-196 | if the run is calm, nobody held back has been taken, and somebody was refused since a package was last taken, then with the block closed one of those refused comes before every taken transaction left in the heap |
| TxLists.LedChoice | backend/src/api/tx-selection-worker.ts:108-120 | then what is chosen next has not been taken |
| TxSelection.CloseBlock | backend/src/api/tx-selection-worker.ts:176-197 | closes a non-empty block and starts an empty one with everything held back waiting again |
| TxSelection.Round | backend/src/api/tx-selection-worker.ts:101-198 | every round closes a block, takes a package, or shortens what is left to read, and its events follow the rules; the loop ends early only on an empty block that counts as full |
| TxSelection.CloseIfFull | backend/src/api/tx-selection-worker.ts:173-197 | the loop ends if and only if fewer than seven blocks are closed and the open one is empty and counts as full; otherwise a full block is closed and nothing else changes |
| EarlyStopExample.StarvedBlocks | backend/src/api/tx-selection-worker.ts:174-183 | for every limit from 4002 to 7999 and a certain mempool with more than a thousand small transactions the worker returns one block of one transaction |
| EarlyStopExample.NobodyStarvesIff | backend/src/api/tx-selection-worker.ts:173-183 | every run of every mempool leaves only oversized packages behind if and only if the limit is at most 4001 or at least 8000 |
| EarlyStopExample.SmallFit | backend/src/api/tx-selection-worker.ts:124-124 | each of the small transactions left behind would have fitted into an empty block |
| TxSelection.Partition | backend/src/api/tx-selection-worker.ts:205-207 | no transaction is in two blocks; if every full ancestor package fits an empty block, the blocks partition the mempool, given a limit of at most 4003 or at least 8000, or a mempool in which no child pays for its parents, or a calm run |
| LeftOvers.OversizedLeft | backend/src/api/tx-selection-worker.ts:173-183 | under limits of at least 8000, and of at most 4001, whoever is left over heads a package that not even an empty block has room for |
| LeftOvers.AllFitAllTaken | backend/src/api/tx-selection-worker.ts:173-183 | if every full package fits an empty block, nobody is left over, given a limit of at least 8000 or a calm run |
| LeftOvers.NobodyLeft | backend/src/api/tx-selection-worker.ts:173-183 | the same given a limit of at most 4003, or a mempool in which no child pays for its parents: conditions on the input |
| LeftOvers.AsideUnused | backend/src/api/tx-selection-worker.ts:122-170 | who was refused for the open block and not pushed since has not been taken and still does not fit |
| LeftOvers.BackUnused | backend/src/api/tx-selection-worker.ts:122-170 | if all full packages fit an empty block, the same holds of everyone refused for the open block, pushed since or not |
| LeftOvers.CalmWithoutPayingChildren | backend/src/api/tx-selection-worker.ts:187-191 | if, whatever has been taken, all ancestors left score more than their descendants, every run under any limit is calm, and nobody ever has two entries |
| LeftOvers.CalmWithOneAncestor | backend/src/api/tx-selection-worker.ts:187-191 | if all full packages fit and the limit is at most 4003, every run is calm: a transaction has one ancestor at most, and no second entry ever gets a new score |
| CoverExample.ThousandLeft | backend/src/api/tx-selection-worker.ts:173-196 | for every limit from 4004 to 7999, a mempool all of whose packages fit an empty block and a run that follows the rules, is not calm, and ends with a thousand left |
| CoverExample.EveryoneTakenIff | backend/src/api/tx-selection-worker.ts:173-183 | on all mempools whose full packages fit, every run takes everyone if and only if the limit is at most 4003 or at least 8000 |
| WorseChoiceExample.WorseChosen | backend/src/api/tx-selection-worker.ts:108-120 | for every limit of at least 4008, a mempool of four and a run that follows the rules, takes everyone, and takes a transaction that is not the best of those neither taken nor set aside |
| StaleHeapExample.WorseScores | backend/src/api/tx-selection-worker.ts:280-286 | for every such limit, the scores of the heap's members in the run with the worse choice, before and after the first package of the second block |
| StaleHeapExample.CoverScores | backend/src/api/tx-selection-worker.ts:280-286 | for every such limit, the scores of the heap's members in the run that leaves a thousand, and how they compare to those in the pool |
| StaleHeapExample.ReplayWorse | backend/src/api/tx-selection-worker.ts:187-191 | the heap's operations in the first of these runs: after a transaction's score has fallen to zero its older entry comes to the root, above one that scores more |
| StaleHeapExample.ReplayCover | backend/src/api/tx-selection-worker.ts:187-191 | the heap's operations in the second run, up to the first package of the second block: the older entry of a transaction stays deep in the heap when its score rises |
| StaleHeapExample.ReplayEnd | backend/src/api/tx-selection-worker.ts:173-196 | the same up to the end of the second block: the entry of a transaction that has been taken is at the root |
| TxSelection.AncestorsNotLater | backend/src/api/tx-selection-worker.ts:125-157 | an in-pool ancestor is in the same block or an earlier one |
| TxSelection.ReportedRates | backend/src/api/tx-selection-worker.ts:210-215 | a transaction is reported exactly when it was taken at a changed rate, and then with that rate, or with its own if that rate is 0 |
| TxSelection.MakeBlockTemplates | backend/src/api/tx-selection-worker.ts:35-222 | terminates with at most eight blocks; each transaction looked at was taken exactly if its package fits and, while the run is calm, had the best ancestor score of all neither taken nor set aside; a block is closed when it counts as full, and the run ends when everyone is taken or on an empty block, in a calm run not straight after closing one while somebody waits unless someone held back has been taken; each of the first seven has 4000 plus its total weight strictly below the limit and at most 80000 sigops per package; no transaction is repeated; for limits up to 4001 and from 8000 on, who is left over heads a package that not even an empty block has room for; if all full packages fit, the blocks are exactly the mempool, given a limit of at most 4003 or at least 8000, or a mempool in which no child pays for its parents, or a calm run; and in the mempool's own fields: an input of a transaction in a block is in that block or an earlier one; weights and sigops of the blocks and packages are within the limits; every package is a family at its price; exactly the transactions taken at another rate than they came with are reported, at that rate, or at their own if it is 0; the clusters are the packages of two or more under their last members |
| TxSelection.Answered | backend/src/api/tx-selection-worker.ts:199-222 | what a finished run answers satisfies all that is asked in the mempool's own fields |
| TxEvents.FirstBlockGreedy | backend/src/api/tx-selection-worker.ts:108-120 | up to the end of the first block each transaction looked at is the best of all neither taken nor set aside |
| TxEvents.LastBlockGreedy | backend/src/api/tx-selection-worker.ts:122-124 | from the eighth block on nothing is refused, and in a calm run each package root is the best of all transactions left |
| RbfTrees.EdgesSymmetric | backend/src/api/rbf-cache.ts:55-60 | the parent map and the child map of a tree of distinct transactions say the same thing |
| RbfTrees.MinedKeeps | backend/src/api/rbf-cache.ts:363-371 | marking a transaction as mined keeps shape, edges, flags, times and intervals |
| RbfTrees.MinedMarks | backend/src/api/rbf-cache.ts:363-371 | exactly the one transaction is marked |
| RbfTrees.MinedOnlyMarks | backend/src/api/rbf-cache.ts:363-371 | marking changes nothing but marks, anywhere in the tree |
| RbfTrees.ExportWrites | backend/src/api/rbf-cache.ts:467-486 | exporting a tree writes the entry of each of its transactions and of no other |
| RbfTrees.NormalizedKeeps | backend/src/api/rbf-cache.ts:525-537 | what a dump forgets does not touch ids, edges, full-RBF flags, times or intervals |
| RbfIndex.Symmetry | backend/src/api/rbf-cache.ts:56-56 | replacedBy(A) = B if and only if A is in replaces(B) |
| RbfIndex.UniqueIdAndExistence | backend/src/api/rbf-cache.ts:57-59 | treeMap(treeMap(X)) = treeMap(X), and treeMap(X) is the root of a tree in rbfTrees |
| RbfIndex.UniqueTreeAndCompleteness | backend/src/api/rbf-cache.ts:58-60 | A in replaces(B) implies that both are in treeMap with the same tree; the keys of replacedBy and replaces are in treeMap |
| RbfIndex.UnreplacedIsRoot | backend/src/api/rbf-cache.ts:330-331 | a known transaction is unreplaced if and only if it is the root of its tree |
| RbfIndex.TreesDisjoint | backend/src/api/rbf-cache.ts:55-60 | no transaction is in two trees |
| RbfIndex.FullRbfMeans | backend/src/api/rbf-cache.ts:149-177 | a root is marked fullRbf if and only if some transaction strictly below it did not signal replaceability (BIP 125, explicit signaling) |
| RbfIndex.Timeline | backend/src/api/rbf-cache.ts:133-182 | in a valid cache, at every node of a tree: the time is the transaction's firstSeen if that is set; the time plus the interval of each transaction it replaced is its own time; a root has no interval |
| RbfIndex.TreeAbsorbed | backend/src/api/rbf-cache.ts:149-160 | a replaced transaction that is known hands over its whole tree, with the interval set |
| RbfIndex.LeafAbsorbed | backend/src/api/rbf-cache.ts:161-172 | an unknown one becomes a leaf with its own fields, its signaling, the time it was first seen or now, and the interval that leads to the new transaction's time; the transaction is stored |
| RbfIndex.PlantedValid | backend/src/api/rbf-cache.ts:174-185 | planting the new root over the absorbed trees restores the invariant |
| RbfIndex.ReplacedRootInvalid | backend/src/api/rbf-cache.ts:148-148 | a cache whose root is recorded as replaced violates the invariant |
| RbfCaching.RbfCache.constructor | backend/src/api/rbf-cache.ts:64-81 | an empty cache satisfies the invariant |
| RbfCaching.RbfCache.UpdateTreeMap | backend/src/api/rbf-cache.ts:348-353 | maps exactly the tree's transactions to the new root |
| RbfCaching.RbfCache.Add | backend/src/api/rbf-cache.ts:121-186 | ignored calls change nothing; otherwise the new transaction roots a tree over exactly the previously unreplaced ones, with its own fields, the time it was first seen or now, and the fullRbf flag of what it replaced; each subtree is the old tree with its interval, or a leaf with the fields of the transaction in the list; other trees are untouched, and the invariant is kept if and only if the new transaction is not itself listed as replaced |
| RbfCaching.RbfCache.Mined | backend/src/api/rbf-cache.ts:188-203 | marks exactly that transaction in its tree, and the tree as mined, changes nothing else there, schedules the expiry, and keeps the invariant |
| RbfCaching.RbfCache.Evict | backend/src/api/rbf-cache.ts:206-212 | sets the expiry of a known transaction unless one is set, or at once when fast; keeps the invariant |
| RbfCaching.RbfCache.Remove | backend/src/api/rbf-cache.ts:328-346 | on a replaced transaction nothing changes; otherwise exactly the described versions leave all maps, and the tree leaves rbfTrees if the transaction is its root, although the invariant is broken during the recursion |
| RbfRemoval.RemovalIsPruning | backend/src/api/rbf-cache.ts:328-346 | in a valid cache removal takes away exactly the tree of an unreplaced transaction, leaves all others untouched and restores the invariant; unknown transactions change nothing |
| RbfRemoval.PrunedValid | backend/src/api/rbf-cache.ts:315-346 | whatever whole trees are taken away, what is left satisfies the invariant |
| RbfCaching.RbfCache.Cleanup | backend/src/api/rbf-cache.ts:315-325 | the outcome does not depend on the order of iteration: exactly the trees whose root has expired and the expired entries are gone, and the invariant holds |
| RbfRemoval.CleanedKeeps | backend/src/api/rbf-cache.ts:329-331 | a version of a transaction is kept if and only if the newest version has not expired |
| RbfCaching.RbfCache.DumpTrees | backend/src/api/rbf-cache.ts:400-408 | every tree is written out once |
| RbfCaching.RbfCache.ImportTree | backend/src/api/rbf-cache.ts:488-537 | an unknown root or a transaction already in the cache yields no tree and changes no link; a dumped tree whose transactions are all known and new is rebuilt, and its links are added to replacedBy and replaces |
| RbfCaching.RbfCache.Load | backend/src/api/rbf-cache.ts:411-432 | importing all dumps of a valid cache into an empty one, in any order, restores replacedBy, treeMap, txs, expiring, replaces (missing and empty lists identified) and every tree up to the mined flag of trees and the fullRbf of transactions, and the result is valid |
| RbfRestore.RestoredWhole | backend/src/api/rbf-cache.ts:411-432 | reading back everything restores every map and the invariant |
| Prioritization.PatienceStep | backend/src/api/transaction-utils.ts:420-430 | writing the predecessor and the pile keeps the arrays' meaning: ranks of longest climbing subsequences, least tops, and links one rank down |
| Prioritization.RankBounds | backend/src/api/transaction-utils.ts:402-430 | no climbing subsequence is longer than the rank of its last index |
| Prioritization.FindPile | backend/src/api/transaction-utils.ts:403-418 | the binary search finds the first pile whose top is above the rate |
| Prioritization.Reconstruct | backend/src/api/transaction-utils.ts:432-440 | following the back-pointers yields a non-decreasing subsequence of maximum length over all subsequences |
| Prioritization.IdentifyPrioritizedTransactions | backend/src/api/transaction-utils.ts:388-465 | for some longest sorted subsequence of the block without its coinbase, backwards: a transaction outside it is listed as prioritized if and only if the nearest kept rate before it (or the first one) is at least 0.1 above its own, and as deprioritized if and only if it is at least 0.1 below; the lists name nobody else, nobody twice, and keep the order |
| Prioritization.NoSmallerRemoval | backend/src/api/transaction-utils.ts:386-387 | any set of transactions whose removal leaves the block sorted is at least as large as what the kept subsequence leaves over |
| Prioritization.ListsDisjoint | backend/src/api/transaction-utils.ts:445-462 | the lists are disjoint and avoid the kept subsequence |
| Prioritization.FewReported | backend/src/api/transaction-utils.ts:445-462 | together the lists have at most N - L members |
| Prioritization.MovedUp | backend/src/api/transaction-utils.ts:456-457 | what is reported as prioritized was mined before a transaction that pays at least 0.1 more |
| Prioritization.MovedDown | backend/src/api/transaction-utils.ts:458-460 | what is reported as deprioritized was mined after a transaction that pays strictly less |
| Prioritization.SortedReportsNothing | backend/src/api/transaction-utils.ts:386-387 | a block in fee rate order has nothing to report |
| Reorg.SetCanonicalUnique | backend/src/repositories/BlocksRepository.ts:1200-1215 | after the two updates a row is canonical at the height exactly if it is the block's own row there; with no block, none is; rows and headers stay; if the block's row is at the height, no other height changes and uniqueness is kept |
| Reorg.Blocks.SetCanonicalBlockAtHeight | backend/src/repositories/BlocksRepository.ts:1200-1215 | leaves the given block, or none, as the only canonical row at the height; no row is lost; if the block's row is at the height, all other heights are as before and one canonical row per height is kept |
| Reorg.Blocks.SaveBlockInDatabase | backend/src/repositories/BlocksRepository.ts:118-215 | a block that is not stale is canonical afterwards; one canonical row per height is kept if and only if the block was there, is stale, or lands on a height without a canonical row |
| Reorg.SavedUnique | backend/src/repositories/BlocksRepository.ts:200-212 | the exact condition under which saving a block keeps one canonical row per height |
| Reorg.Blocks.GetBlockByHeight | backend/src/repositories/BlocksRepository.ts:557-577 | a canonical row at the height, or none if there is none |
| Reorg.Blocks.IndexBlock | backend/src/api/blocks.ts:1315-1339 | with indexing and unless told to skip the table, an indexed block is returned as it is; otherwise the node is asked, the call fails if it does not serve the block, and the block is saved if indexing is on; without indexing the table is neither read nor written |
| Reorg.Blocks.WalkBack | backend/src/api/blocks.ts:1242-1268 | terminates; exactly the heights at which the old best chain differs, down to the fork, are re-pointed; it fails only if a missing ancestor is not served |
| Reorg.ForkUnique | backend/src/api/blocks.ts:1252-1252 | the fork height is determined by the old table and the new block |
| Reorg.MovedThere | backend/src/api/blocks.ts:1253-1254 | at every height from the fork to the parent the ancestor is the unique canonical row |
| Reorg.MovedElsewhere | backend/src/api/blocks.ts:1252-1268 | at every other height the best chain is the old one |
| Reorg.MovedUnique | backend/src/repositories/BlocksRepository.ts:1208-1213 | at most one canonical row per height is kept |
| Reorg.Blocks.Rebuild | backend/src/api/blocks.ts:1270-1285 | continues downwards with cached or indexed ancestors until the genesis, the limit, or a missing block |
| Reorg.RebuiltLinked | backend/src/api/blocks.ts:1295-1298 | the rebuilt cache is an ascending hash-linked chain that ends at the new block's parent |
| Reorg.Blocks.HandleReorgs | backend/src/api/blocks.ts:1241-1308 | without a divergence nothing changes; with one, the table is moved exactly down to the fork and the cache is the longest available segment of the new chain within the limit; if the node cannot serve a block the table is moved part of the way and still consistent, and the cache is unchanged |
| Reorg.Blocks.Connect | backend/src/api/blocks.ts:1066-1071 | after the walk back and the saving of the new block every height from the fork up to the block has the new chain's block, all other heights the old one; the invariants hold again if and only if the block was there, is stale, or its height had no canonical row |
| FeeStats.CoveredWeight | backend/src/api/common.ts:1293-1302 | a band gathers exactly the weight of its part that the transactions cover |
| FeeStats.AverageBetween | backend/src/api/common.ts:1305-1308 | the reported average lies between the reported minimum and maximum |
| FeeStats.Attained | backend/src/api/common.ts:1299-1300 | the minimum, and the maximum unless it is 0, is the rate of a transaction that reaches into the band |
| FeeStats.Bounds | backend/src/api/common.ts:1299-1301 | the reported minimum and maximum bound the rates of all transactions that reach into the band |
| FeeStats.WholeBand | backend/src/api/common.ts:1304-1308 | a closed band's average is the sum of rate times overlap divided by the band width |
| FeeStats.DescendingAverages | backend/src/api/common.ts:1248-1248 | for transactions in descending order of rate, an earlier band averages no less than a later one |
| FeeStats.Round | backend/src/api/common.ts:1293-1316 | one round of the inner loop keeps the tracking of all bands and closes a band or reaches the end of the transaction |
| FeeStats.OnlineFeeStatsCalculator.constructor | backend/src/api/common.ts:1270-1283 | sets up the bands of the percentiles, with one aligned to each end; the object is valid whenever each band ends after the one before |
| FeeStats.BandsPlaced | backend/src/api/common.ts:1270-1329 | one band of the same width for each percentile and one at either end; the first starts at 0, the last ends at the maximum, the others have their percentile in the middle; the defaults are 2 percent and 10, 25, 50, 75, 90 |
| FeeStats.AscendingRises | backend/src/api/common.ts:1270-1283 | for a positive range and width and ascending percentiles between the ends, each band ends after the one before, whether they overlap or not |
| FeeStats.SameRound | backend/src/api/common.ts:1292-1303 | a band that overlaps the one before gathers from where that one ends |
| FeeStats.DefaultSpaced | backend/src/api/common.ts:1254-1256 | the default percentiles give bands that do not overlap |
| FeeStats.OnlineFeeStatsCalculator.ProcessNext | backend/src/api/common.ts:1285-1318 | terminates, and afterwards every closed band and the open one hold what they gather from all transactions so far |
| FeeStats.OnlineFeeStatsCalculator.GetRawFeeStats | backend/src/api/common.ts:1331-1345 | there is one entry per percentile, last first, each equal to computing that band on its own, as it was configured if the bands do not overlap; the minimum is that of the first entry, the maximum that of the last, the median the average at half the length |
| FeeStats.OnlineFeeStatsCalculator.GetFeeStats | backend/src/api/common.ts:1347-1352 | the same, with the ends of the range replaced by the overall minimum, which is finite, and maximum |
| FeeStats.ReadTwice | backend/src/api/common.ts:1332-1338 | reading twice adds an entry if and only if a band is open |
| RbfMatching.FindNested | backend/src/api/common.ts:87-101 | one match per added transaction that outbids and double-spends some deleted ones, holding exactly those |
| RbfMatching.BuildSpendMap | backend/src/api/common.ts:104-112 | the table holds the last deleted transaction that spends each output |
| RbfMatching.FindByLookup | backend/src/api/common.ts:114-131 | one match per added transaction for which the lookups find any, holding exactly those |
| RbfMatching.LookupRefines | backend/src/api/common.ts:87-131 | the lookup form reports a subset of the nested form for every added transaction, and the same map when no two deleted transactions spend the same output |
| RbfMatching.FormsAgree | backend/src/api/common.ts:87-131 | the forms agree on every replacement if and only if no two deleted transactions spend the same output |
| RbfMatching.FindRbfTransactions | backend/src/api/common.ts:83-135 | which form is taken for which input |
| FastCpfp.PartitionUnique | backend/src/api/cpfp.ts:20-53 | the block has only one partition into such segments |
| FastCpfp.Covered | backend/src/api/cpfp.ts:20-53 | every transaction lies in a segment |
| FastCpfp.FeesConserved | backend/src/api/cpfp.ts:23-29 | at its rate a segment pays exactly its fees |
| FastCpfp.Calculator.ReversePass | backend/src/api/cpfp.ts:19-53 | the segments are contiguous and disjoint, every member but the last is spent by a later member, each is as long as possible; all but the first get their rate; the clusters are the segments of two or more |
| FastCpfp.Calculator.MinAncestorRate | backend/src/api/cpfp.ts:57-62 | the least of the transaction's own rate and its parents' non-zero rates |
| FastCpfp.Calculator.ForwardPass | backend/src/api/cpfp.ts:55-83 | the final rate of every transaction: the least among its own and its parents' non-zero rates if a whole number covers that and the next one does not exceed its own, and its own rate otherwise, where parents earlier in the block count with their final rates; so of each whole number that covers the rate of an earlier in-block parent the transaction stays below the next, and a rate is lowered only past such a step; the clusters are exactly those of before with the rate of the member lowered last, followed by one for each lowered transaction without a cluster, in block order |
| FastCpfp.SegmentClusterRate | backend/src/api/cpfp.ts:79-81 | a cluster of the reverse pass keeps its rate if none of its members was lowered, and else has the final rate of the member lowered last |
| FastCpfp.LoweredHasCluster | backend/src/api/cpfp.ts:69-78 | every lowered transaction has a cluster; a cluster added for it alone carries its final rate |
| FastCpfp.Calculator.CalculateFastBlockCpfp | backend/src/api/cpfp.ts:9-97 | both passes together, without saved relatives: the partition, the rates between the passes, the final rate of every transaction as above, and the returned clusters with their rates |
| BlockDeltas.CalculateMempoolDeltas | backend/src/api/mempool-blocks.ts:61-100 | one delta per block of either side, with exactly the new, gone and changed transactions, each with its own fields and with the nearest number of hundredths to its rate, or to its fee per vsize if the rate is 0; including blocks that appear or vanish |
| BlockDeltas.RoundedNearest | backend/src/api/mempool-blocks.ts:666-666 | a shown rate is the nearest number of hundredths |
| BlockDeltas.Client.Apply | frontend/src/app/services/state.service.ts:277-289 | adds, then removes, then patches rate and acceleration of known transactions |
| BlockDeltas.FullStateShows | frontend/src/app/services/state.service.ts:267-276 | the full list sent at the start shows the block |
| BlockDeltas.DeltaLists | backend/src/api/mempool-blocks.ts:61-100 | a delta takes a client with the previous block's transactions and acceleration flags to one with the current ones, whatever else has changed |
| BlockDeltas.DeltaRates | backend/src/api/mempool-blocks.ts:92-92 | the client's rates are right again if and only if no transaction that stays, with unchanged rate and acceleration, is shown at a different rate, as it may be with a rate of 0 |
| BlockDeltas.DeltaDetails | backend/src/api/mempool-blocks.ts:61-100 | fee, vsize, value and time are right again if and only if they are the same in every transaction that stays |
| BlockDeltas.DeltaShows | backend/src/api/mempool-blocks.ts:61-100 | a client that shows the previous block shows the current one, in everything but the flags, if and only if no transaction that stays has changed in fee, vsize, value or time |
| BlockDeltas.ReplayShows | backend/src/api/mempool-blocks.ts:541-546 | after any run of saved updates the client has exactly the current block's transactions and acceleration flags; its rates and the rest are right if they never changed unnoticed |
| ClusterPacking.IdBack | backend/src/repositories/CpfpRepository.ts:212-215 | an identifier's reversed bytes are read back as the identifier if and only if it is in lower case |
| ClusterPacking.RecordRoundTrip | backend/src/repositories/CpfpRepository.ts:207-240 | a record is read back as its transaction if and only if the identifier is in lower case, the weight has 32 bits and the fee is whole and has 64 |
| ClusterPacking.BytesRoundTrip | backend/src/repositories/CpfpRepository.ts:207-240 | any record whose fee is exact as a number is written again as it was read |
| ClusterPacking.RoundTrip | backend/src/repositories/CpfpRepository.ts:207-246 | unpacking a packed list of any length gives the list back if and only if every member fits |
| ClusterPacking.RecordIsRecord | backend/src/repositories/CpfpRepository.ts:212-217 | byte by byte: the identifier's digit pairs from the last to the first, four bytes of weight and eight of the rounded fee, the most significant first |
| ClusterPacking.ParseIsParsed | backend/src/repositories/CpfpRepository.ts:232-239 | the same for what is read from any 44 bytes |
| ClusterPacking.Pack | backend/src/repositories/CpfpRepository.ts:207-220 | the buffer is the concatenation of the 44-byte records, and bytes 44 i to 44 i + 43 are the record of the i-th member |
| ClusterPacking.Unpack | backend/src/repositories/CpfpRepository.ts:222-246 | a missing buffer or one that ends inside a record gives nothing; otherwise the i-th member is that of the i-th 44 bytes |

## Left out

- TxLists.Peek: with a stale entry in the heap any entry may come out, although the source's heap then yields a particular one. Everything but the order of choice is stated for that case as well.
- PairingHeaps.PairingHeap: the linked nodes are a tree of values and the handles numbers, so the links between siblings are not modelled; the worker's lists hold the heap as a list of entries, whose `TxLists.Peek` promises what `PairingHeaps` proves of the root.
- CoverExample.ThousandLeft: its run is one that the rules allow; they let any entry out of a heap with stale ones, so that the worker takes this run rests on `StaleHeapExample.ReplayCover` and `ReplayEnd`, which go through the heap's operations by hand.
- WorseChoiceExample.WorseChosen: as above, with `StaleHeapExample.ReplayWorse`.
- TxEvents.Calm: is enough for the worker's choices to be the best ones; a run that is not calm may make good choices too.
- Audit transactions as aliased objects: their fields are maps and sets of one pool object, updated in place by its methods; the pool is the object that is mutated.
- Replacement trees as objects: trees are values stored in the cache's map; `add` and `mined` put the changed tree back.
- The order of transactions with equal sort keys, beyond the tie-breaks in the comparators.
- Floating-point rounding, NaN and Infinity: rates are reals and unset limits are options.
- `usedBy`, `cpfpRoot`, `cpfpChecked` and the `ancestors` field of the template (always empty).
- `calculateGoodBlockCpfp` and `calculateCpfpCluster`: clients of the mini-miner whose own logic is conversion; the unbounded call they make is covered by `MiniMiner.MakeBlockTemplate`.
- The cache queue, dirty trees, counters and read-only views of the replacement cache; writing to and reading from Redis and disk.
- Imports of dumps with missing child transactions: links are written before the missing transaction is noticed, and the invariants are not promised there.
- Connecting loaded trees to the current mempool, checking loaded trees against the node, and the clean-up at the end of `load`.
- RbfCaching.RbfCache.ImportTree: requires a dump that describes a tree, as every exported one does; the eviction of an imported tree that is mined is not there because no imported tree is ever marked.
- Prioritization.IdentifyPrioritizedTransactions: requires distinct transaction ids, since the source looks kept transactions up by id.
- RbfMatching.FindNested: matches are sets, so the order inside a match is not modelled; added transactions have distinct ids.
- The parts of a reorganisation that delete or re-index other tables (hashrates, difficulty adjustments, CPFP, accelerations), block summaries, and what `$updateBlocks` does besides (`Reorg.Blocks.Connect` is its part that follows a chain); when it catches up after falling behind it skips the walk back.
- FeeStats.OnlineFeeStatsCalculator.constructor: promises a valid object only if each band ends after the one before; for percentiles out of order or repeated, the source adds negative or empty stretches, and nothing is said.
- FastCpfp.Calculator.CalculateFastBlockCpfp: models the call without `saveRelatives`, the only one made.
- The choice between sending a full list or a delta to a client, and sequence numbers.
- BlockDeltas.Client: changes in `flags` alone are not tracked by the source, and the client's flags are not described.
- ClusterPacking.Pack: identifiers are 64 hexadecimal digits; what `parseInt` makes of other characters is not modelled.
- Network, database text, websockets, timers, logging, `rust-gbt`, and display bookkeeping.
