# Verified models of RLinf's planning and data-shaping algorithms

RLinf spreads reinforcement-learning workloads over GPUs. Around the training loop it has a number of self-contained
algorithms whose correctness is not obvious from reading them. This project models six groups of them in Dafny and
proves what each is for.

* **Placement search** (`Graphs`, `Tarjan`, `Compress`, `TopoSort`, `Workflows`, `Placement`, `Scheduling`,
  `ScheduleProps`, `Chains`, `FewGpus`, `LongChains`, `FoundIff`, `ThreeComponents`, `ActorLast`). A workflow graph is
  condensed to its strongly connected components, sorted, cut in two in all forward ways, and a memoised search over
  cuts and GPU counts picks the cheapest collocated or pipelined placement. The last six modules say when that search
  raises, when it finds anything, and what the result costs, in reasoning tasks and in embodiment tasks.
* **Sequence balancing** (`Sorting`, `Partitions`, `Differencing`, `KarmarkarKarp`, `EqualParts`, `BestFit`,
  `PackingBounds`, `MicroBatches`, `OverLimit`, `SplitLists`). Largest differencing over mutable sets and states,
  best-fit decreasing packing, and the dynamic micro-batcher built on both.
* **Batch resizing** (`BatchTables`, `BatchIterator`, `SampleOrder`). The iterator that turns fetched batches into
  global batches and micro-batches, with one prefetched micro-batch, consumption accounting and a log, and which sample
  it hands out when.
* **Checkpoint conversion** (`LayerPlacement`, `RankTables`, `CheckpointKeys`, `CheckpointStore`, `FileContents`,
  `Experts`, `MergedFiles`, `LayerSaves`, `WholeRanks`, `RankContents`). Where a layer, a tensor shard or an expert goes
  in a Megatron checkpoint, what each file holds, and what converting the layers of a pipeline rank apart and merging
  them leaves.
* **Flex plan and replay ring** (`FlexInputs`, `FlexPlans`, `FlexProps`, `ReplayRing`, `ReplayBuffer`). Routing of
  environment slots to rollout ranks with two indexes, and a circular buffer over preallocated columns.
* **Backward recursions** (`Tensors`, `Returns`). GAE, scores, the loss mask and the reshaping between chunked and flat
  steps.

`Wrappers` has the option and outcome types; `Lists` joins lists; `Arithmetic` has minima, sums, ranges and the laws of
products and remainders. An `Outcome` is `Raised` where the Python code raises, whatever the exception.

## How the parts are modelled

Code that updates objects in place is a class or a method with loops and invariants: the Tarjan search, `Set` and
`State` of Karmarkar-Karp, the schedule cache, the batch iterator, the checkpoint files, the replay buffer with its
arrays. Each is tied to a function on values, about which the further lemmas speak. Proofs name the facts they need
and `hide` the definitions they do not need, which keeps every obligation small.

Assertions of the Python code that can be proved never to fail are kept as assertions: in `KarmarkarKarp`,
`MicroBatches.BalancedPartitions`, `BestFit.CheckPacking` and `BatchIterator`.

Where the code does not do what one might expect, the model follows the code. Each entry names the condition and the
lemma that has it; a condition is exact unless the entry says otherwise, and a failing input is given where one is not
plain from the condition.

* Kahn's order leaves out exactly the nodes some cycle reaches (`TopoSort.TopologicalOrderLists`).
* The contracted graph is right for every workflow in which no two components are represented by equal nodes, and for
  no other (`Compress.CompressSccs`); a cycle of two nodes next to a node that is already their `SccNode` is one that
  fails (`Compress.CollidingHasNoCondensation`). Workflows of plain component names never do.
* A pipelined merge raises exactly when the neighbour it consults inside a collocated part is collocated itself
  (`Placement.MergeRaisesIff`); four components are enough for that (`LongChains.FourthComponentRaises`). So the whole
  search raises on a chain with a cost for every component and GPU count exactly when the chain has four or more
  components and there are three or more GPUs (`LongChains.ChainRaisesIff`). It never raises on an acyclic workflow of
  plain components when there are at most two GPUs or at most three components (`LongChains.SearchIsFine`); when it
  raises on larger acyclic workflows that are no chains is open.
* The search may find no schedule although one exists, and `main` then reads the mode of None. For two components, for
  three in a reasoning chain and for three that end with the actor of an embodiment task, on any number of GPUs, and for
  at most two GPUs it is said exactly when it finds one (`FoundIff.PairFoundIff`, `ThreeComponents.TripleFoundIff`,
  `ActorLast.ActorTripleGives`, `FewGpus.FewGpusShare`). Three components of equal costs
  are scheduled on every number of GPUs except three, where nothing is found
  (`ThreeComponents.EqualCostsFindNothing`).
* On at most two GPUs a schedule needs a workflow that falls apart into its components by repeated cutting
  (`FewGpus.Divisible`). This depends on the order in which node sets are listed, and weak connectivity is not enough:
  the workflow b <- a -> c <- d, listed a, d, b, c, has no such sequence of cuts, as every cut leaves a side of several
  components with one that has no edge to the others.
* Pipelined splits stop at `gpu_num - 2` GPUs for the source, so one split is never tried;
  `ScheduleProps.ScheduleIsBest` says which candidates the result is minimal among. It is not a claim of global
  optimality, because only the cheapest sub-schedule is kept.
* Micro-batches may exceed the token limit, because the packing only counts groups: lengths 3, 3, 2, 2, 2 with limit 6
  give a micro-batch of 7 tokens (`OverLimit.LimitExceeded`). The limit is met whenever all tokens and `k - 1` longest
  sequences are together less than `k` times the limit plus one (`MicroBatches.RoomyMeetsLimit`, one way). In any case
  the excess is at most the longest sequence.
* The iterator asks for `n // micro` pieces of a global batch of `n` samples. They have the micro-batch size exactly if
  it divides `n` (`BatchIterator.PieceSizeIff`); otherwise they are larger, by less than a factor of two: six samples in
  micro-batches of four give one of six (`BatchIterator.OversizedPiece`). The assertions on the sizes hold on all
  batches whenever the micro-batch size divides the global batch size and every fetched one
  (`BatchIterator.EvenFeedsAreUsable`).
* `split_list` in enforced mode checks the chunk size, not the chunk count, so the count is right exactly when it
  divides the length (`SplitLists.EnforcedCountIff`); three elements in two chunks give three.
* `get_hetero_pp_rank` returns None for a layer behind the first 1000 stages, and its caller fails on unpacking
  (`LayerPlacement.SearchFinds`, `LayerPlacement.LayerLocated`).
* Embedding and final norm are read where they were written exactly when the first and the last traversed stage have a
  layer; empty stages are accepted by both sides (`LayerPlacement.EmptyFirstStage`, `LayerPlacement.EmptyLastStage`).
* Experts are dropped without an error exactly when the expert-parallel size does not divide their number
  (`Experts.AllExpertsKeptIff`); the third of three experts over two groups is (`Experts.OneExpertDropped`).
* Slot sizes of the flex plan are positive exactly when the manager's batch is (`FlexProps.SplitSizesSum`); a negative
  default batch size is accepted and gives negative slots (`FlexProps.NegativeSizesAccepted`).
* A pipeline rank without layers gets no file at all (`WholeRanks.EmptyRank`).
* A replay batch raises exactly when it is empty, has at least as many rows as the capacity, because the truncating
  helper is called with one argument too few, or has a key the buffer does not have. In the last case the columns before
  that key have been written: the buffer is then still right exactly if nothing written to a live slot differs from what
  the slot held (`ReplayRing.StepHolds`), so always while the slots written were free (`ReplayRing.FreeSlotsHold`). In a
  full buffer it may leave an item made of two (`ReplayRing.FailedAdditionMixes`).
* Items without any key count although there is no column for them; when columns are made later, they become items of
  zeros (`ReplayRing.Started`).
* The rewards under the loss mask are an episode's score unless its first done flag is set, which hides every reward
  from the mask but not from the score (`Returns.MaskedSumIsScore`, `Returns.FirstFlagSplitsThem`).

## Model

| member | source | states |
|---|---|---|
| Tarjan.FindSccs | toolkits/auto_placement/workflow.py:49-86 | for every finite graph, with cycles, self-loops, repeated edges and nodes that are no keys, the lists partition the nodes, two nodes share a list iff each reaches the other, and no edge leads to a list emitted later |
| Tarjan.SccSearch.TarjanDfs | toolkits/auto_placement/workflow.py:52-73 | one call terminates, discovers everything the node reaches, keeps the search invariant, emits only whole components, and leaves a `low` that bounds all edges back into the older stack |
| Tarjan.SegmentIsScc | toolkits/auto_placement/workflow.py:65-73 | when `low` equals `disc`, the stack from the node up is exactly one strongly connected component |
| Tarjan.SccsExtend | toolkits/auto_placement/workflow.py:65-73 | emitting a closed segment keeps the emitted lists exact, disjoint and in reverse topological order |
| Compress.CompressSccs | toolkits/auto_placement/workflow.py:88-137 | for every workflow: the result is its condensation, with one node per component and an edge between two iff the workflow has one between their members, without repetition or self-loops, iff no two components are represented by equal nodes |
| Compress.IndexedIsBackward | toolkits/auto_placement/workflow.py:108-126 | the target of every cross-component edge was inserted earlier, so the lookup among existing keys finds it |
| Compress.FindExisting | toolkits/auto_placement/workflow.py:112-126 | the search over the keys finds the compressed node of a component iff it has been inserted |
| Compress.LinkSccs | toolkits/auto_placement/workflow.py:96-137 | the linking loops build the condensation iff the representatives are distinct; otherwise a later component overwrites an earlier one |
| Compress.CollidingHasNoCondensation | toolkits/auto_placement/workflow.py:102-106 | on a two-node cycle beside a node that is already its `SccNode` no graph is the condensation |
| Compress.CondensationIsAcyclic | toolkits/auto_placement/workflow.py:88-137 | a condensation is acyclic whatever cycles the workflow has |
| Compress.CondensationPreservesReach | toolkits/auto_placement/workflow.py:88-137 | in a condensation of any workflow, representatives reach each other iff their members do |
| TopoSort.TopologicalSort | toolkits/auto_placement/workflow.py:139-158 | the in-place loops with the degree dictionary and the queue compute the order the lemmas below speak of |
| TopoSort.SourcesInOrder | toolkits/auto_placement/workflow.py:146-148 | the queue starts with exactly the nodes of in-degree zero, in the order of the node list |
| TopoSort.TopologicalOrderLists | toolkits/auto_placement/workflow.py:139-158 | the order lists each once, after all their predecessors, exactly the nodes that no cycle reaches |
| TopoSort.CompleteIffAcyclic | toolkits/auto_placement/workflow.py:139-158 | it contains every node iff the graph is acyclic, and then every edge points forward |
| TopoSort.RelaxEffect | toolkits/auto_placement/workflow.py:153-156 | relaxing lowers each degree by the multiplicity of the edge and queues exactly the nodes that reach zero, once |
| Workflows.TraverseStCuts | toolkits/auto_placement/workflow.py:198-234 | the loop over the positions of the order computes the cuts the lemmas below speak of |
| Workflows.CutsAreAcross | toolkits/auto_placement/workflow.py:214-234 | for every workflow, one cut for each position of the order that some edge leads across and for no other, in increasing order, each with the two sub-workflows on the nodes up to and behind the position |
| Workflows.SubWorkflow | toolkits/auto_placement/workflow.py:204-212 | the nested loops build the induced subgraph |
| Workflows.CutSides | toolkits/auto_placement/workflow.py:198-234 | both sides of every cut are induced subgraphs on non-empty disjoint parts joined by an edge; for an acyclic workflow they cover all nodes and no edge leads back |
| Workflows.RestrictAcyclic | toolkits/auto_placement/workflow.py:204-212 | an induced sub-workflow of an acyclic workflow is acyclic |
| Workflows.RestrictTwice | toolkits/auto_placement/workflow.py:204-212 | restricting twice is restricting once to the intersection |
| Placement.PlacePipelined | toolkits/auto_placement/placement.py:237-247 | the loop shifts every sink range behind the source's GPUs and raises on an empty range |
| Placement.DictUpdateDisjoint | toolkits/auto_placement/placement.py:154-157 | merging the placements of disjoint parts loses and overwrites nothing |
| Placement.MergeWellPlaced | toolkits/auto_placement/placement.py:35-65 | a merged result places exactly the nodes of both parts, each on a non-empty contiguous range inside the total; at every pipelined level source and sink ranges are disjoint and their counts sum to the parent's |
| Placement.MergePriced | toolkits/auto_placement/placement.py:92-103 | in reasoning tasks a result has one mode throughout though only children are inspected, and its cost depends on the leaves alone: batch times their sum if collocated, their sum plus (batch - 1) times their maximum if pipelined |
| Placement.SharedPrice | toolkits/auto_placement/placement.py:141-160 | in every task, sharing costs the totals of both parts, on GPU counts that must be equal |
| Placement.PipelinedPrice | toolkits/auto_placement/placement.py:173-235 | in every task, a pipeline costs per group the larger of its two parts, a collocated part counting as its component next to the other; its warm-up is the sum of both warm-ups; its total is the warm-up plus the larger cost for each of the other groups |
| Placement.MergeFoundIff | toolkits/auto_placement/placement.py:35-65 | a merge that does not raise is refused exactly if, in reasoning tasks, a part has the other mode, or, in embodiment tasks, an actor at the end is not on all GPUs |
| Placement.MergeRaisesIff | toolkits/auto_placement/placement.py:162-170 | a merge of well placed parts raises iff it is pipelined and consults a collocated child of a collocated part |
| Scheduling.AutoPlacementWorker.FindSchedule | toolkits/auto_placement/auto_placement_worker.py:97-157 | the memoised search terminates, returns what the search without cache returns, also when that raises, and keeps the cache sound |
| Scheduling.AutoPlacementWorker.Run | toolkits/auto_placement/auto_placement_worker.py:159-161 | a run from an empty cache returns the plain search's result for the whole workflow |
| Scheduling.KeyDeterminesGraph | toolkits/auto_placement/workflow.py:170-189 | within one run the cache key, which forgets order and repetition of neighbours, determines the workflow and the GPU count |
| Scheduling.CutIsBelow | toolkits/auto_placement/auto_placement_worker.py:128-131 | both sides of each cut have strictly fewer nodes, which is why the recursion ends |
| ScheduleProps.ScheduleIsBest | toolkits/auto_placement/auto_placement_worker.py:126-157 | the result is one of the merges the two loops visit and none of those is cheaper |
| ScheduleProps.ScheduleIsSound | toolkits/auto_placement/auto_placement_worker.py:97-157 | every schedule found for an acyclic workflow on g GPUs is well placed on exactly its nodes within g GPUs, and in reasoning tasks priced by its leaves |
| ScheduleProps.ScheduleIsPriced | toolkits/auto_placement/auto_placement_worker.py:104-157 | in every task, every schedule found is priced at every level: components by their profile, per group in reasoning tasks and divided by the number of environments in embodiment tasks, shared parts by their sum, pipelines by warm-up and slower part |
| ScheduleProps.LeafMeans | toolkits/auto_placement/auto_placement_worker.py:104-124 | a single component is scheduled iff it has a cost; it raises iff it is a contracted cycle, or divides by zero environments |
| ScheduleProps.ScheduleIsFine | toolkits/auto_placement/auto_placement_worker.py:164-182 | on acyclic workflows of at most three plain components the search never raises |
| Chains.ChainCuts | toolkits/auto_placement/workflow.py:198-234 | a chain of n components has exactly its n - 1 cuts, each into two shorter chains |
| FewGpus.FewGpusShare | toolkits/auto_placement/auto_placement_worker.py:126-157 | with at most two GPUs no pipeline is tried: on an acyclic plain workflow of any size the search never raises, and finds a schedule, which shares all GPUs at every level, iff every component has a cost and some sequence of cuts leads down to single components |
| LongChains.SearchIsFine | toolkits/auto_placement/auto_placement_worker.py:97-157 | on acyclic plain workflows with at most two GPUs or at most three components the search never raises and what it finds is sound |
| LongChains.ChainIsNested | toolkits/auto_placement/auto_placement_worker.py:127-136 | with at most two GPUs a profiled chain is scheduled as a tree nested to the left at every level, each sink a single component, because ties go to the later cut |
| LongChains.FourthComponentRaises | toolkits/auto_placement/placement.py:162-170 | three shared components merged in turn are such a sink: the fourth makes the merge raise |
| LongChains.LongChainRaises | toolkits/auto_placement/auto_placement_worker.py:126-157 | on every chain of at least four components and at least three GPUs with the costs it consults, the search raises |
| LongChains.ChainRaisesIff | toolkits/auto_placement/auto_placement_worker.py:97-157 | on a chain with a cost for every component and GPU count the search raises iff it has at least four components and there are at least three GPUs |
| FoundIff.PairFoundIff | toolkits/auto_placement/auto_placement_worker.py:126-157 | for two components on any number of GPUs the search never raises, and finds a schedule iff both have a cost on all GPUs, or on the two sides of a split it tries and the second is not the actor of an embodiment task |
| ThreeComponents.PairGives | toolkits/auto_placement/auto_placement_worker.py:104-157 | for a chain of two components, in every task and on any number of GPUs: the result is collocated iff both have a cost on all GPUs and every pipeline tried is dearer, and pipelined iff one is possible and not dearer than sharing; the total is that of sharing, or of the cheapest pipeline, in terms of the profile |
| ThreeComponents.TripleFoundIff | toolkits/auto_placement/auto_placement_worker.py:126-157 | for a reasoning chain of three components on any number of GPUs, with whatever costs are known: the search never raises, and finds a schedule iff the first component can join what is best for the other two, or the third what is best for the first two |
| ThreeComponents.EqualCostsFindNothing | toolkits/auto_placement/auto_placement_worker.py:126-157 | with equal costs it returns None on three GPUs and on no other number, although the collocated schedule of all three can be built |
| ActorLast.ChainPlaced | toolkits/auto_placement/placement.py:154-157 | the placement of a chain lists its components in their order, so an actor at the end of the chain is the last entry |
| ActorLast.ActorTripleGives | toolkits/auto_placement/auto_placement_worker.py:164-182 | the embodiment workflow env, env_rollout, actor on any number of GPUs: the search never raises, finds a schedule iff the first two have one and the actor a cost on all GPUs, and it costs what is best for the first two, shared or pipelined, plus the actor |
| Sorting.SortBySorted | rlinf/utils/data_iter_utils.py:306 | sorting by any strict order sorts |
| Sorting.SortByMultiset | rlinf/utils/data_iter_utils.py:306 | sorting keeps the elements with their multiplicities |
| Partitions.PartGreaterIsOrder | rlinf/utils/data_iter_utils.py:291-296 | comparison by sum, count and items is a strict order |
| Partitions.PartLessMeans | rlinf/utils/data_iter_utils.py:291-296 | a set is below another if its sum is, for equal sums if it has fewer items, and then if at the first difference it has the smaller index or length |
| Partitions.UsedFirst | rlinf/utils/data_iter_utils.py:291-306 | in a sorted state the non-empty sets form a prefix, also with zero lengths, thanks to the tie-break on the count |
| Partitions.NewStateOk | rlinf/utils/data_iter_utils.py:299-306 | a new state has its items, the invariants of a state and a bounded spread |
| Partitions.MergeKeeps | rlinf/utils/data_iter_utils.py:317-320 | merging keeps sums, order, the number min(k, items) of used sets and equal sizes, adds up the items, and spreads no wider than the wider of the two |
| Partitions.StateLessOrder | rlinf/utils/data_iter_utils.py:326-332 | the heap's comparison is asymmetric with a transitive complement |
| Partitions.PoolMerge | rlinf/utils/data_iter_utils.py:364-369 | replacing any two states of the heap by their merge keeps the heap's invariant and its items, whatever the pop order |
| Differencing.StatesTotal | rlinf/utils/data_iter_utils.py:326-332 | states with different first sets never compare equal, so the heap has no ties between states that share no item |
| Differencing.LeastUnique | rlinf/utils/data_iter_utils.py:364-366 | at most one state of a heap of disjoint states is least |
| Differencing.StepSettles | rlinf/utils/data_iter_utils.py:364-369 | a turn of the loop does not change where the run ends |
| Differencing.EveryRunSettles | rlinf/utils/data_iter_utils.py:364-371 | a state is the end of some run that merges two successively least states in every turn iff it is the one of the deterministic run: the layout of the heap leaves no choice |
| Partitions.StateIsPartition | rlinf/utils/data_iter_utils.py:308-315 | a state holding the input's items splits the indices exactly, and its sums are the groups' lengths |
| Partitions.PartitionMeans | rlinf/utils/data_iter_utils.py:403-413 | in a partition every index is in one place of one group |
| KarmarkarKarp.State.Merge | rlinf/utils/data_iter_utils.py:317-320 | the in-place pairing of largest with smallest and the re-sort compute the merge of the values; the other state is not changed |
| KarmarkarKarp.State.GetPartitions | rlinf/utils/data_iter_utils.py:308-315 | returns the index lists of the sets |
| KarmarkarKarp.Least | rlinf/utils/data_iter_utils.py:365-366 | the popped state is one below which there is no other |
| KarmarkarKarp.MergeTwo | rlinf/utils/data_iter_utils.py:364-369 | one turn replaces two successively least states of the heap by their merge, and keeps all items and the invariants |
| KarmarkarKarp.Balance | rlinf/utils/data_iter_utils.py:275-378 | returns exactly for fitting inputs; then the parts are those of the largest-differencing run, split 0..n-1 exactly, the first min(k, n) are non-empty, sums descend and differ by at most the longest length (unequal mode) or the widest block (equal mode), and equal mode gives parts of n/k items |
| EqualParts.StartsFromNeighbours | rlinf/utils/data_iter_utils.py:346-362 | the initial states hold the neighbours of the list ordered by length and then index, k at a time for equal sizes and else one at a time |
| EqualParts.EqualSpread | rlinf/utils/data_iter_utils.py:346-378 | parts of equal size differ in their sums by no more than the sequences in a block of k neighbours of that list differ in length |
| BestFit.BestGroup | rlinf/utils/data_iter_utils.py:441-450 | the inner loop finds the first group the item fills most tightly, or that it fits none |
| BestFit.Place | rlinf/utils/data_iter_utils.py:440-457 | one turn puts the item into the best group or opens one; remaining capacity stays capacity minus load |
| BestFit.LongestFirstOrder | rlinf/utils/data_iter_utils.py:431-433 | sequences are packed longest first, equally long ones by index |
| BestFit.BestFitDecreasing | rlinf/utils/data_iter_utils.py:421-476 | refuses exactly the inputs with a too long sequence; otherwise the groups of best-fit decreasing, each index in one group, no group over capacity; the closing checks cannot fail |
| PackingBounds.AnyTwoExceed | rlinf/utils/data_iter_utils.py:433-457 | any two of its groups together exceed the capacity |
| PackingBounds.ThreeHalves | rlinf/utils/data_iter_utils.py:433-457 | it uses at most 3/2 times as many groups as any valid packing |
| PackingBounds.LongNeedGroups | rlinf/utils/data_iter_utils.py:433-457 | sequences over half the capacity need a group each in any packing |
| PackingBounds.SameTotal | rlinf/utils/data_iter_utils.py:433-457 | all partitions of the sequences have the same total length |
| MicroBatches.BalancedPartitions | rlinf/utils/data_iter_utils.py:381-418 | returns exactly for 0 < k <= n with a fitting division; the differencing parts, each non-empty and sorted, still balanced; no assertion can fail |
| MicroBatches.SpreadAtMostLongest | rlinf/utils/data_iter_utils.py:360-369 | in unequal mode the spread is at most the longest sequence |
| MicroBatches.LightestWithin | rlinf/utils/data_iter_utils.py:510-530 | with at least as many parts as a packing has groups, the lightest part is within the capacity |
| MicroBatches.MicroBatchBound | rlinf/utils/data_iter_utils.py:510-530 | every part holds at most the capacity plus the longest sequence |
| MicroBatches.HeaviestBound | rlinf/utils/data_iter_utils.py:527-530 | k times any part is at most all tokens plus k - 1 longest sequences |
| MicroBatches.RoomyMeetsLimit | rlinf/utils/data_iter_utils.py:492-530 | the documented limit is met if all tokens plus k - 1 longest sequences are less than k times the limit plus one |
| OverLimit.LimitExceeded | rlinf/utils/data_iter_utils.py:492-530 | a batch of five samples with 3, 3, 2, 2, 2 tokens, accepted with limit 6, packs into two groups, is cut into two micro-batches, and the first has 7 tokens |
| MicroBatches.RoundUpIsLeast | rlinf/utils/data_iter_utils.py:271-272 | rounding up gives the least multiple not below the argument |
| MicroBatches.GetIteratorDynamic | rlinf/utils/data_iter_utils.py:492-543 | for any count from other ranks: the number of micro-batches is the least multiple of the divisor that is not below the local groups, the minimum and that count; each sample is in exactly one micro-batch, row a of every column is the row its list names, the micro-batches are the differencing parts; none exceeds the limit plus the longest sequence nor its share of all tokens and k - 1 longest sequences, and with room the limit itself is met; raises exactly when there is no such number between 1 and n, or the width is over the limit |
| MicroBatches.RanksAgree | rlinf/utils/data_iter_utils.py:513-525 | ranks that exchange the largest of their own counts cut their batches into equally many micro-batches |
| MicroBatches.GetReverseIdx | rlinf/utils/data_iter_utils.py:630-645 | raises iff an entry is no index of the list; otherwise entry v is the last place of v, or stays if v does not occur; for an injective map the result is its inverse |
| MicroBatches.FlattenedPermutes | rlinf/workers/actor/megatron_actor_worker.py:719-722 | the flattened indices of a partition are a permutation, so the length assertion holds |
| MicroBatches.OutputsRestored | rlinf/workers/actor/megatron_actor_worker.py:717-726 | reordering the concatenated outputs by the reversed indices restores the samples' order |
| SplitLists.SplitListKeeps | rlinf/utils/data_iter_utils.py:63-80 | neither mode loses, repeats or reorders an element |
| SplitLists.UnenforcedIsEven | rlinf/utils/data_iter_utils.py:76-80 | without enforcement there are always as many chunks as asked for, of sizes that differ by at most one |
| SplitLists.EnforcedCountIff | rlinf/utils/data_iter_utils.py:69-74 | with enforcement the number of chunks is the one asked for iff it divides the length |
| SplitLists.EnforcedCanMiscount | rlinf/utils/data_iter_utils.py:69-74 | three elements in two chunks are accepted and give three |
| BatchTables.PermuteRows | rlinf/utils/data_iter_utils.py:152-160 | shuffling permutes the samples and keeps each whole |
| BatchTables.ChunksRows | rlinf/utils/data_iter_utils.py:190-226 | splitting loses no sample |
| BatchTables.ChunksShape | rlinf/utils/data_iter_utils.py:190-226 | every piece has the same columns, aligned, of the asked size |
| BatchTables.MergedRows | rlinf/data/io_struct.py:847-866 | merging keeps the columns aligned and holds all samples of the list |
| BatchTables.MergedInOrder | rlinf/data/io_struct.py:847-866 | the rows of the merged batch are those of the list, joined in order |
| BatchTables.ChunksInOrder | rlinf/utils/data_iter_utils.py:190-226 | the pieces of a split, joined, are the rows of the batch in order |
| BatchIterator.BatchResizingIterator.GetNextMicroBatch | rlinf/data/io_struct.py:1050-1070 | hands out the prefetched or the next micro-batch, counts its samples once, logs it once; on usable feeds the overflow assertion cannot fail |
| BatchIterator.BatchResizingIterator.Next | rlinf/data/io_struct.py:1121-1147 | on every feed on which the source's size assertions hold: raises exactly at the end of the stream, otherwise returns its first micro-batch and leaves the rest |
| BatchIterator.EvenFeedsAreUsable | rlinf/data/io_struct.py:1062-1069 | the size assertions hold, and all micro-batches have the asked size, whenever it divides the global batch size and every fetched one |
| BatchIterator.PieceSizeIff | rlinf/data/io_struct.py:1139-1145 | the pieces of a global batch have the asked size iff it divides the batch |
| BatchIterator.OversizedPiece | rlinf/data/io_struct.py:1139-1145 | six samples in micro-batches of four are accepted and give one of six |
| BatchIterator.BatchResizingIterator.PrefetchOneBatch | rlinf/data/io_struct.py:1043-1048 | returns the first micro-batch of the stream and leaves the stream as it was |
| BatchIterator.BatchResizingIterator.GetAllBatches | rlinf/data/io_struct.py:1037-1041 | returns the logged micro-batches joined row by row in the order they were taken, and clears the log; stream, counter and pending batches stay |
| BatchIterator.BatchResizingIterator.CheckFinishedGlobalBatch | rlinf/data/io_struct.py:1032-1035 | passes exactly when the rows taken are a positive multiple of the global batch size |
| BatchIterator.TakeOk | rlinf/data/io_struct.py:1058-1069 | taking a micro-batch of whatever size keeps the consumed counter in range and equal to the samples taken modulo the global size |
| BatchIterator.FetchOk | rlinf/data/io_struct.py:1094-1115 | fetching a batch and cutting it into global batches keeps the invariant and the stream |
| BatchIterator.CutOk | rlinf/data/io_struct.py:1139-1145 | cutting a global batch into micro-batches keeps the invariant and the stream |
| BatchIterator.RunOutputs | rlinf/data/io_struct.py:1037-1070 | over every run of the three calls the outputs are the first micro-batches of the stream, and the invariant holds at the end |
| BatchIterator.PrefetchingIsInvisible | rlinf/data/io_struct.py:1043-1057 | a new iterator returns the same micro-batches however prefetching and collecting are interleaved |
| BatchIterator.EverySampleLogged | rlinf/data/io_struct.py:1037-1070 | when the stream ends, every fetched sample is in the log exactly once, handed out or not |
| SampleOrder.SplitOrder | rlinf/utils/data_iter_utils.py:125-226 | with shuffling, row i of the joined pieces of a split is row perm(n)[i] of the batch; without, it is row i |
| SampleOrder.StreamOrder | rlinf/data/io_struct.py:1094-1145 | over every feed, the rows of the micro-batches are those of the fetched batches one after another, each shuffled once if it is no multiple of the global size, and else as a whole and again within each global batch |
| SampleOrder.UnshuffledOrder | rlinf/data/io_struct.py:1094-1145 | without shuffling, the rows of the micro-batches of the stream are the rows of the feed in order |
| SampleOrder.RunLogsInOrder | rlinf/data/io_struct.py:1037-1070 | after any calls on a new iterator the log, collected or not, holds the first of these rows in order, and all of them when the stream ends |
| LayerPlacement.SearchFinds | toolkits/ckpt_convertor/convert_middle_file_to_mg.py:63-67 | the search finds the stage whose prefix-sum interval holds the layer; without one it raises past the end of the list and returns None past 1000 stages |
| LayerPlacement.LayerLocated | toolkits/ckpt_convertor/convert_middle_file_to_mg.py:55-106 | the unpacked result exists exactly for accepted configurations within the search limit, and is the slot and local index of the layer, with and without `pp_stages`, for 1f1b and dualpipev |
| LayerPlacement.SlotFilled | toolkits/ckpt_convertor/convert_middle_file_to_mg.py:55-106 | every local index of every slot is the place of exactly one layer |
| LayerPlacement.SizesCoverAll | toolkits/ckpt_convertor/convert_middle_file_to_mg.py:82-89 | the slots hold all layers, also after reversing the second half |
| LayerPlacement.PlacesDistinct | toolkits/ckpt_convertor/convert_hf_to_mg.py:175-199 | no two layers share rank, model key and local index |
| LayerPlacement.VShape | toolkits/ckpt_convertor/convert_hf_to_mg.py:183-189 | in dualpipev rank r has `pp_stages[r]` layers in its first chunk and `pp_stages[pp + r]` in its second |
| LayerPlacement.WriterTable | toolkits/ckpt_convertor/convert_hf_to_mg.py:169-199 | the table gives every rank its slot's layers in order, and for dualpipev those of its slot on the way back behind them |
| LayerPlacement.TableIsBijection | toolkits/ckpt_convertor/convert_hf_to_mg.py:175-199 | every layer is in exactly one place of the table |
| RankTables.OneFOneBRows | toolkits/ckpt_convertor/convert_hf_to_mg.py:175-199 | for 1f1b with stages, row i of rank r is layer sum(stages[:r]) + i at local index i, for as many layers as its stage says |
| RankTables.DualPipeVRows | toolkits/ckpt_convertor/convert_hf_to_mg.py:175-199 | for dualpipev with stages, the second chunk of rank r starts behind all first chunks and the second chunks of the ranks after r |
| RankTables.EvenRows | toolkits/ckpt_convertor/convert_hf_to_mg.py:175-199 | without stages, row i of rank r in 1f1b is layer r * size + i |
| RankTables.EvenRowsBothWays | toolkits/ckpt_convertor/convert_hf_to_mg.py:175-199 | without stages, row i of the second chunk of rank r in dualpipev is layer (2 * pp - 1 - r) * size + i |
| LayerPlacement.ReaderTable | toolkits/ckpt_convertor/convert_mg_to_middle_file.py:716-756 | the reader's table is the writer's plus an entry for the embedding, numbered behind the last layer, in front of rank 0, and one for the final norm, with the next number, behind the last rank, or rank 0 for dualpipev, each under its model key |
| LayerPlacement.EmbeddingAgrees | toolkits/ckpt_convertor/convert_mg_to_middle_file.py:742-756 | the embedding is read at the rank and model key where layer 0 is written iff the first stage is not empty |
| LayerPlacement.NormAgrees | toolkits/ckpt_convertor/convert_mg_to_middle_file.py:742-756 | the final norm is read where the last layer is written iff the last traversed stage is not empty |
| LayerPlacement.EmptyFirstStage | toolkits/ckpt_convertor/convert_mg_to_middle_file.py:742-756 | with stages of 0 and 4 layers the embedding is read where layer 0 is not written |
| LayerPlacement.EmptyLastStage | toolkits/ckpt_convertor/convert_mg_to_middle_file.py:742-756 | with stages of 4 and 0 layers the final norm is read where the last layer is not written |
| CheckpointKeys.GenRaises | toolkits/ckpt_convertor/convert_middle_file_to_mg.py:137-140 | the generator raises iff tpe > tp and it has something to yield |
| CheckpointKeys.KeysDistinct | toolkits/ckpt_convertor/convert_middle_file_to_mg.py:126-148 | with tpe <= tp no two model ranks of any pipeline ranks share a key, for all sizes |
| CheckpointKeys.GenYields | toolkits/ckpt_convertor/convert_middle_file_to_mg.py:119-148 | it yields exactly the selected model ranks under pairwise distinct keys |
| CheckpointKeys.EveryShardReached | toolkits/ckpt_convertor/convert_middle_file_to_mg.py:119-148 | every (expert group, expert-tensor rank) pair and every tensor rank reaches a key |
| FileContents.TargetsMatchNames | toolkits/ckpt_convertor/convert_middle_file_to_mg.py:119-148 | the targets yielded are exactly those of the model ranks of the group; the tensor rank of a target is the one in the name of its file, its expert-tensor rank m mod tpe |
| FileContents.TargetsInOrder | toolkits/ckpt_convertor/convert_middle_file_to_mg.py:119-148 | they come in the order of the model ranks |
| CheckpointStore.Checkpoint.Execute | toolkits/ckpt_convertor/convert_middle_file_to_mg.py:150-178 | the loop over the targets updates the nested dictionaries as the value-level save does; if it raises, the targets before the failing one have been written and nothing else |
| CheckpointStore.Checkpoint.ExecuteAll | toolkits/ckpt_convertor/convert_middle_file_to_mg.py:609-610 | the loop over the operations does what the run of the saves does; if it raises, the saves before the failing one have been executed and that one in part |
| CheckpointStore.PushAllEffect | toolkits/ckpt_convertor/convert_middle_file_to_mg.py:150-178 | one save fails iff some target cannot take it; else each target has its own piece and all else is unchanged |
| CheckpointStore.RunStores | toolkits/ckpt_convertor/convert_middle_file_to_mg.py:609-610 | a run of saves fails exactly when two meet under one name in one file, a shard is missing or a model key unknown; else every file holds exactly the pieces meant for its rank |
| FileContents.RunContents | toolkits/ckpt_convertor/convert_middle_file_to_mg.py:150-178 | after a run from fresh files, the file of tensor rank t and model rank m has every copied value whole, part t of every tensor-parallel one, part m mod tpe of the expert shards of its group, and nothing else |
| FileContents.TensorRestored | toolkits/ckpt_convertor/convert_middle_file_to_mg.py:157-165 | the parts of a parameter, read from files in the order of the tensor ranks in their names, are the parts it was split into |
| FileContents.EveryTensorRank | toolkits/ckpt_convertor/convert_middle_file_to_mg.py:126-148 | there is a file for every tensor rank |
| FileContents.EveryExpertShard | toolkits/ckpt_convertor/convert_middle_file_to_mg.py:126-148 | there is a file for every shard of every expert group |
| Experts.CollectExpertSaves | toolkits/ckpt_convertor/convert_middle_file_to_mg.py:573-600 | the expert loop collects one save per expert and parameter; it divides by zero iff there are fewer experts than groups but some |
| Experts.ExpertsFit | toolkits/ckpt_convertor/convert_middle_file_to_mg.py:573-600 | no two experts meet under one local name in one file |
| Experts.ExpertsStored | toolkits/ckpt_convertor/convert_middle_file_to_mg.py:573-600 | the file of each model rank has the local experts of its group, each with the shard of its expert-tensor rank |
| Experts.OnlyLocalExperts | toolkits/ckpt_convertor/convert_middle_file_to_mg.py:573-600 | and no other expert |
| Experts.AllExpertsKeptIff | toolkits/ckpt_convertor/convert_middle_file_to_mg.py:305 | every expert reaches some file iff the group count divides the expert count |
| Experts.OneExpertDropped | toolkits/ckpt_convertor/convert_middle_file_to_mg.py:305 | of three experts over two groups the third is in no file |
| Experts.ExpertConversion | toolkits/ckpt_convertor/convert_middle_file_to_mg.py:573-610 | converting the experts of a layer into fresh files never fails and leaves exactly them |
| MergedFiles.MergeCheckpointDict | toolkits/ckpt_convertor/convert_middle_file_to_mg.py:237-255 | the nested loops join all dictionaries and raise exactly on a name that is there already |
| MergedFiles.TwoConversions | toolkits/ckpt_convertor/convert_middle_file_to_mg.py:237-255 | two separate conversions clash iff one conversion of both fails, and otherwise join to its files |
| MergedFiles.MergeIsOneConversion | toolkits/ckpt_convertor/convert_middle_file_to_mg.py:237-255 | converting layers in separate processes and merging equals converting them one after the other, failures included |
| LayerSaves.CollectSaves | toolkits/ckpt_convertor/convert_middle_file_to_mg.py:320-607 | the lists of operations of a layer: the embedding with layer 0, final norm and output layer with the last, the layer's own parameters and its experts; fails iff there are fewer experts than groups but some |
| LayerSaves.SavesOfLayer | toolkits/ckpt_convertor/convert_middle_file_to_mg.py:320-600 | a layer saves the embedding iff it is the first, final norm and output layer iff it is the last, each own parameter and each expert parameter under its own name with its own content, and nothing else |
| LayerSaves.LayerFits | toolkits/ckpt_convertor/convert_middle_file_to_mg.py:479-610 | no two saves of a layer meet under one name in one file |
| LayerSaves.ConvertLayer | toolkits/ckpt_convertor/convert_middle_file_to_mg.py:292-610 | collecting and executing does to the files what the run of those saves does, failures included |
| WholeRanks.RowsDistinct | toolkits/ckpt_convertor/convert_hf_to_mg.py:175-199 | within a rank no two rows of the table are for one layer or for one place |
| WholeRanks.ConvertRank | toolkits/ckpt_convertor/convert_hf_to_mg.py:318-333 | the loop over the layers of a rank converts each into files of its own and merges them; it raises iff a conversion or the merge does |
| WholeRanks.RankConverts | toolkits/ckpt_convertor/convert_middle_file_to_mg.py:237-255 | for the layers the table gives to a rank the merge never finds a name twice, nothing raises, and the files are those of one conversion of all layers |
| WholeRanks.SaveIsStored | toolkits/ckpt_convertor/convert_hf_to_mg.py:318-333 | then every parameter of every layer of the rank is under its name in every file whose rank it applies to, with that rank's piece |
| RankContents.LayerStored | toolkits/ckpt_convertor/convert_hf_to_mg.py:318-333 | end to end: the merged file of tensor rank t and model rank m has, for every layer of its pipeline rank, each own parameter whole or its part t, the embedding, final norm and output layer with the first and the last layer, and the shard m mod tpe of each expert of its group under its local index |
| WholeRanks.NothingElseStored | toolkits/ckpt_convertor/convert_hf_to_mg.py:318-333 | and every name in a file is that of a save of one of the rank's layers |
| WholeRanks.EmptyRank | toolkits/ckpt_convertor/convert_hf_to_mg.py:318-333 | for a rank without layers the merge gives no file |
| FlexInputs.NormalizeManagers | rlinf/workers/per_env_flex_plan.py:39-66 | accepts exactly one non-empty list of positive sizes per environment rank, or fills in the default |
| FlexInputs.NormalizeRanks | rlinf/workers/per_env_flex_plan.py:69-111 | accepts exactly one non-empty list of valid rollout ranks per manager, or fills in all ranks |
| FlexInputs.NormalizeSplits | rlinf/workers/per_env_flex_plan.py:114-161 | accepts exactly splits of matching length with positive sizes that sum to the manager's batch |
| FlexPlans.AllocateEnvIds | rlinf/workers/per_env_flex_plan.py:195-207 | the id of a manager is the number of managers before it by (manager index, environment rank) |
| FlexPlans.IdsOrdered | rlinf/workers/per_env_flex_plan.py:195-207 | ids are ordered by (manager index, environment rank), without duplicates |
| FlexPlans.IdsBelowTotal | rlinf/workers/per_env_flex_plan.py:195-207 | the counter ends at the number of managers |
| FlexPlans.IdTaken | rlinf/workers/per_env_flex_plan.py:195-207 | every smaller number is some manager's id |
| FlexPlans.BalancedMeans | rlinf/workers/per_env_flex_plan.py:227-230 | default sizes sum to the batch and differ by at most one; one is zero iff the batch is between minus and plus the slot count, all are positive iff it is at least the slot count |
| FlexPlans.PlaceSlots | rlinf/workers/per_env_flex_plan.py:209-251 | the nested loops raise iff some manager cannot be split, and otherwise build both indexes over the same slots |
| FlexProps.BuildFlexPlan | rlinf/workers/per_env_flex_plan.py:164-260 | returns exactly for valid lists, at least one environment rank and splittable managers, and then the plan the lemmas below describe |
| FlexProps.EmittedNumbered | rlinf/workers/per_env_flex_plan.py:213-250 | slot ids are 0 to total - 1 in order |
| FlexProps.RolloutIndexAgrees | rlinf/workers/per_env_flex_plan.py:210-249 | every slot is in the list of its rollout rank and no other, in increasing slot id |
| FlexProps.EnvIdsBijective | rlinf/workers/per_env_flex_plan.py:195-251 | the keys of the index by environment are exactly 0 to N - 1 |
| FlexProps.EnvIndexAgrees | rlinf/workers/per_env_flex_plan.py:235-251 | the entry of a manager has its slots, consecutively numbered, one per rollout rank of its list |
| FlexProps.DefaultRouting | rlinf/workers/per_env_flex_plan.py:69-251 | without rollout ranks in the configuration every manager has one slot for each rollout rank, and slot j goes to rank j |
| FlexProps.SplitSizesSum | rlinf/workers/per_env_flex_plan.py:225-234 | slot sizes sum to the manager's batch and are all positive iff it is |
| FlexProps.LoadConserved | rlinf/workers/per_env_flex_plan.py:213-251 | the load over all rollout ranks is the number of environments |
| FlexProps.NegativeSizesAccepted | rlinf/workers/per_env_flex_plan.py:227-234 | a default batch of -2 over two rollout ranks is accepted as -1 and -1 |
| ReplayRing.WriteKeepsLive | rlinf/data/replay_buffer.py:196-203 | writing at `pos` and stepping on keeps every live slot of a column equal to its item of the history |
| ReplayRing.AddHolds | rlinf/data/replay_buffer.py:196-203 | adding an item keeps the ring equal to the last min(history, capacity) items |
| ReplayRing.BatchIsAdds | rlinf/data/replay_buffer.py:259-273 | writing the columns of a batch, all or some, at wrapped indices is adding its items, completed by what the slots held, one by one |
| ReplayRing.WriteHolds | rlinf/data/replay_buffer.py:259-273 | so the ring then equals the last items of a history that grows by them |
| ReplayRing.WrittenHoldsIff | rlinf/data/replay_buffer.py:89-97 | columns written without a step of the counters keep the ring right iff nothing written to a live slot differs from what it held |
| ReplayRing.StepHolds | rlinf/data/replay_buffer.py:196-305 | any call, with complete, incomplete, empty or refused items, keeps the ring equal to the last items iff it does not raise after changing a live slot |
| ReplayRing.RunHolds | rlinf/data/replay_buffer.py:196-305 | after any run of such calls, failed ones included, none of which raises after changing a live slot, the ring holds exactly the last min(history, capacity) items since the last clear |
| ReplayRing.CompleteRunHolds | rlinf/data/replay_buffer.py:196-305 | a run of complete items raises nowhere, and the history is just what was added since the last clear |
| ReplayRing.LiveSlots | rlinf/data/replay_buffer.py:275-288 | the indices below `size` and the last min(history, capacity) items correspond one to one |
| ReplayRing.FreeSlotsHold | rlinf/data/replay_buffer.py:89-97 | a call does no such harm while the slots it writes are free |
| ReplayRing.FailedAdditionMixes | rlinf/data/replay_buffer.py:89-97 | in a full buffer of one slot a refused item does: the slot ends with an item made of two |
| ReplayBuffer.InsertNestedBatch | rlinf/data/replay_buffer.py:89-97 | in the order of the keys, the columns before the first missing one are written in place at the wrapped indices, and nothing else; raises iff one is missing |
| ReplayBuffer.SACReplayBuffer.Add | rlinf/data/replay_buffer.py:196-203 | for every item, empty ones included: raises iff it has a key that is no column; whole new state, columns made lazily, counters and history; the buffer is still right iff the call did no harm |
| ReplayBuffer.SACReplayBuffer.AddRolloutBatch | rlinf/data/replay_buffer.py:222-273 | with and without preprocessing: raises exactly for batches without rows or without a row count, with at least as many rows as the capacity or with a new key; whole new state; the buffer is still right iff the call did no harm |
| ReplayBuffer.SACReplayBuffer.Sample | rlinf/data/replay_buffer.py:275-288 | raises iff nothing was added since the last clear; sample i is, column by column, what slot draws[i] holds, which is the last item added there, whole |
| ReplayBuffer.LatestUnique | rlinf/data/replay_buffer.py:75-85 | every slot has one last item, and different slots have different ones, so distinct draws give distinct items |
| ReplayBuffer.SACReplayBuffer.Clear | rlinf/data/replay_buffer.py:302-305 | empties the history and keeps the columns |
| Tensors.UnflattenFlatten | rlinf/algorithms/utils.py:165-172 | unflattening a flattened [chunk, batch, step] tensor gives it back |
| Tensors.FlattenUnflatten | rlinf/utils/metric_utils.py:123-126 | flattening an unflattened tensor gives it back |
| Tensors.FlattenAt | rlinf/algorithms/utils.py:111-113 | step k of chunk i becomes row i * chunk size + k |
| Tensors.UnflattenAt | rlinf/algorithms/utils.py:165-172 | row i * chunk size + k becomes step k of chunk i |
| Returns.DiscountedStep | rlinf/algorithms/advantages.py:66-76 | the sum of discounted terms cut off at the first later done obeys the backward recursion |
| Returns.ComputeGae | rlinf/algorithms/advantages.py:56-79 | advantages are the sums of (gamma * lambda)^(l - t) errors cut off at the first later done, returns are advantages plus values; without values, sums of rewards |
| Returns.ReturnTelescopes | rlinf/algorithms/advantages.py:66-77 | for lambda = 1 the return is the discounted reward sum plus the surviving bootstrap value |
| Returns.ValueOfStep | rlinf/algorithms/utils.py:115-119 | keeping the first n + 1 rows pairs each step with its own recorded value and with that of the step after it, across chunks |
| Returns.RecordedAdvantageStep | rlinf/algorithms/utils.py:109-119 | in terms of the recorded tensors, the advantage of a step is its error plus, unless its own flag is set, gamma * lambda times that of the next step, and nothing follows the last |
| Returns.EmbodiedGae | rlinf/algorithms/advantages.py:56-79 | end to end from the recorded tensors: flattening, cutting values and flags, GAE and unflattening give each chunk step its recorded advantage, and returns that are advantages plus recorded values |
| Returns.CalculateScores | rlinf/algorithms/utils.py:134-152 | the loop computes for every environment the rewards up to the first done flag after step 0, and the reshape groups them |
| Returns.GroupsHoldScores | rlinf/algorithms/utils.py:143-143 | the reshape succeeds iff the group size divides the environments, and puts environment q * group size + i at place i of group q |
| Returns.MaskedSumIsScore | rlinf/utils/metric_utils.py:120-122 | the rewards under the loss mask are the score if the first flag is false, and nothing if it is true |
| Returns.FirstFlagSplitsThem | rlinf/utils/metric_utils.py:120-122 | one step behind a set first flag scores its reward and is masked out |
| Returns.MaskIsPrefix | rlinf/utils/metric_utils.py:120-122 | the mask keeps exactly the steps before the first done flag |
| Returns.MaskSumIsEpisodeLength | rlinf/utils/metric_utils.py:128 | the mask sum counts the steps before the first done flag |
| Returns.FlagBehindStep | rlinf/algorithms/utils.py:119-123 | after dropping the leading flags, the flag behind a step is the one recorded for it |
| Returns.ScoreIsMaskedReward | rlinf/utils/metric_utils.py:110-131 | from the recorded tensors, the score of an environment is the sum of its rewards under `compute_loss_mask` unless its first flag is set |

## Left out

Placement search:

- Node identity: components are compared as values, where the code compares roles by hash; an `SccNode` whose role string equals a plain role is not modelled.
- The order of `list(node_set)` is one fixed but arbitrary enumeration per node set.
- Cost models of the nodes, profiling, the curve fitter and configuration parsing: the leaf cost is an arbitrary function from component and GPU count to an optional real; `SccNode.profile` raises.
- Hashing of workflows: the cache key is what equality looks at.

Balancing and batching:

- Floating point and tensors: token counts are natural numbers, batches are columns of values.
- The branch of `get_iterator_dynamic` for lists of tensors, which does the same on positions instead of keys.
- The all-reduce over data-parallel ranks is an arbitrary count from elsewhere; `MicroBatches.RanksAgree` says what follows when it is the largest of the ranks' own counts.
- The heap is a list from which a least state is popped; the array layout of `heapq` is left open, and makes no difference (`Differencing.EveryRunSettles`).
- BatchIterator.BatchResizingIterator.Next: what the iterator is left with after one of the size assertions has failed is not modelled, nor registered handlers of global or fetched batches and `reset_total_batch_size` in mid-run.
- MicroBatches.MicroBatchBound: allows one longest sequence over the documented limit, because balancing can exceed the limit (`OverLimit.LimitExceeded`); `MicroBatches.RoomyMeetsLimit` says when it does not.
- The random permutation of a shuffle is an arbitrary permutation, fixed per batch size because the seed is fixed.
- The in-place shuffle of a fetched dictionary is modelled on values; the caller's aliasing of that dictionary is not.
- `split_results`, `merge_result_list` and the other containers of `io_struct`.

Checkpoints:

- Tensors are opaque: splitting and merging of shards, fp8 scales, dtype conversion and the regrouping of expert weights for grouped matrix products are not modelled.
- File names are tuples: the formatting of ranks into digits, resuming by `.done` files and the extra states are left out; that some files of a rank are not written is covered.
- Parameter names keep the layer's index, the expert's and the rest apart; the tables of names per attention type are an arbitrary list without repetition, and the check of loaded against expected names is left out.
- The reader's file names for expert parallelism differ from the writer's keys (`mp_rank_for_expert...`), so the two sides are compared on layers, embedding and final norm only.
- `pp_stages` holds natural numbers; the third value of `get_hetero_pp_rank` is modelled, including its 0 for layer 0 of an even split, but nothing uses it.

Flex plan, replay and returns:

- The `enabled` flag, configuration lookup and conversion of entries to integers.
- ReplayBuffer.SACReplayBuffer.AddRolloutBatch: takes the batch already flattened and without the two keys it drops; without preprocessing, for columns of one length only, as unequal ones would be broadcast or refused by the tensor library. Nested dictionaries are flat columns; truncation, demos, splitting and files are left out.
- Normalisation, GRPO, REINFORCE++, KL terms and losses; `chunk_level` rewards.
- Reals stand for floating-point numbers. Where costs tie in exact arithmetic, as for the two ways of nesting a chain, rounding may break the tie either way; `LongChains.ChainIsNested` and what rests on it speak of the exact sums.
