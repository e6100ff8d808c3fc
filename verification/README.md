# Verified models of HyperQwen's preparation, attention and calibration code

These Dafny modules model the parts of the repository where a mistake is hard to see in a run: files rewritten
in place while a container can be killed, attention kernels that split, mask and merge, and quantization code
that reorders arithmetic. Each module follows one source file, keeps its branches, constants and error exits, and
proves what the source promises about it.

- **Model preparation** (`Contents`, `AtomicPublish`, `Resume`, `Originals`, `QuantSchema`, `PrepareSteps`,
  `PrepareScripts`, `PrepareInvariants`, `PrepareResults`, `PrepareBackups`, `IgnoreLists`, `StreamHeads`,
  `StreamRun`, `StreamResults`, `StreamRefusals`, `StreamBackups`, `DraftHead`, `DraftRun`, `DraftResults`,
  `FastVariant`, `FastResults`). A disk is names,
  inodes and contents, so that hardlinks are visible. Every write, link and rename is one operation, and a budget
  of operations kills a run after any of them. A script is a plan, a function from what it reads to the actions
  it still has to do, and a method on the disk that carries the plan out. `Resume` proves, once for all plans,
  that a resumable plan survives any history of killed runs; each script is then shown to be resumable. What a
  completed script leaves is stated file by file in the `...Results` modules, without the functions that edit.
- **Split-KV attention** (`FlashBlocks`, `FlashSoftmax`, `FlashCombine`, `FlashSplitKv`, `FlashWindow`,
  `VarlenLayout`, `CombineStore`, `MtpAttention`, with `ExpLog` and `Sums`). Block ranges and addresses are
  integers with C's division; values are exact reals, with -inf, +inf and, where it matters, NaN as their own
  constructors. exp and ln are any pair of functions that satisfies the usual laws. The attention a row should
  get is the plain softmax-weighted mean over the keys it sees.
- **Quantization and calibration** (`RoundToNearest`, `NearestCodes`, `Gptq`, `GptqFeedback`, `GptqBlocks`,
  `GptqRounding`, `Hessian`). Exact reals, matrices updated in place, rounding to nearest with ties to even.
- **Files** (`ByteStrings`, `Safetensors`, `StreamRewrite`, `RewriteRoundTrip`, `ResumableLog`, `LogLines`, `LogRecords`,
  `LogHistories`). JSON is an abstract codec with stated laws; lengths, offsets, padding, newlines and cuts are exact
  bytes.
- **Small algorithms** (`MicroBatch`, `ScratchCapacity`, `CallBinding`).

## Findings

Where a promise does not hold of the code on all inputs, a lemma gives the exact condition.

- A draft-head build killed right after it creates `model_extra_tensors.safetensors` in a model that had none is
  taken for an original by the next run, which backs it up as `.bak-draft`. Killed runs end as a clean run does if
  and only if the model starts with that file or with its backup: for the draft step on its own
  (`DraftHead.DraftSurvivesKills`) and behind the other scripts (`DraftRun.WholePreparationSurvivesKills`).
- The streaming script looks for the one shard of the MTP linears only after it has rewritten the shards of the heads.
  On a model whose MTP linears are missing or span two shards it stops with an error, and by then it has replaced
  shards under an index that still names the bf16 weights (`StreamRefusals.RefusedYetRewritten` has such a model). A
  run that stops leaves the disk untouched if and only if no head pass it got to found a bf16 weight to pack
  (`StreamRefusals.RefusalTouchesIff`).
- The lm_head script puts the MTP linears that are missing from config.json's ignore list on it. When it runs after
  the MTP script, a linear that the index names packed is ignored. In every state of a killed preparation no packed
  linear is ignored if and only if that holds at the start and lm_head is not still to do while the index names a
  linear packed (`IgnoreLists.LinearsNotIgnoredIff`).
- `Sig.binds` accepts a bound call of a method without parameters, and a keyword named like the dropped `self`
  when the method has `**kwargs`; Python rejects both. `CallBinding.AgreesIff` says for which signatures the two
  agree.
- Prompts that share an id and are both accepted are both generated within one run
  (`LogHistories.DistinctOnDiskIff`).
- `stream_rewrite` leaves bytes that belong to no tensor when a kept tensor is also added
  (`RewriteRoundTrip.OutputTilesIff`).
- The even causal kernel skips one masked block. That is right exactly when the part of a query block that
  overhangs whole key blocks divides a key block, a weaker demand than one block size dividing the other
  (`FlashBlocks.EvenStepsExact`, `FlashBlocks.DividingBlocksFit`).

## Model

| member | source | states |
|---|---|---|
| AtomicPublish.Disk.WriteAndPublish | prepare/atomic_publish.py:36-64 | a file is replaced whole through its temporary sibling, the disk being cut after any of the operations if the budget ends; no other name reads differently, hardlinked or not |
| AtomicPublish.Disk.Replace | prepare/atomic_publish.py:36-41 | a rename gives the target the temporary file's inode and leaves every other name with its own, so that only the target reads differently |
| AtomicPublish.Disk.KeepBackup | prepare/atomic_publish.py:67-74 | a backup is made only if there is none, with the content the file has now |
| AtomicPublish.Disk.LinkOnce | prepare/quant_heads_stream.py:112-117 | the hardlinked backup is made only if there is none |
| Resume.KilledRunsThenOne | prepare/atomic_publish.py:3-15 | for every resumable plan: any number of runs killed after any operation, then one complete run, leave what one clean run leaves, and no temporary file |
| Resume.HistoryStays | prepare/atomic_publish.py:3-15 | every kill history leaves the live files at some prefix of the clean run's actions |
| Resume.ThenResumable | prepare/atomic_publish.py:12-15 | two resumable plans in sequence are resumable when the second leaves the first done |
| Resume.GatedResumable | docker/prepare.sh:62-66 | a step gated by the index it writes last is resumable if its ungated plan is |
| Resume.EditingResumable | prepare/atomic_publish.py:6-11 | backing up once and replacing by an idempotent edit is resumable |
| RoundToNearest.RowIsNearest | prepare/quant_schema.py:104-116 | every code is the nearest multiple of its group's scale, reached without the clamp, and no element moves by more than half a scale |
| NearestCodes.Pack | prepare/quant_schema.py:93-120 | for every chunk size: every code fits its bits and is the nearest to its element, every scale takes the largest magnitude of its group to the largest code or is the floor, and error and norm are the sums of squares over all elements |
| NearestCodes.WidthsOfUse | prepare/quant_schema.py:104-110 | codes of 8 bits are -128 to 127, codes of 4 bits -8 to 7 |
| QuantSchema.PackAllHolds | prepare/quant_schema.py:123-132 | after packing, each base has its three packed entries and no bf16 weight, and no entry of another base changed |
| QuantSchema.PackAllWrites | prepare/quant_schema.py:93-132 | each base's packed entries hold nearest codes, scales and the shape of what was its bf16 weight before the pass, or what they held if it was packed already; its other entries stay |
| QuantSchema.PackOneAccepts | prepare/quant_schema.py:123-132 | a tensor is accepted if and only if it is packed already, or in bf16, packable and, where the script checks it, within 1% of its codes |
| QuantSchema.IndexAllHolds | prepare/quant_schema.py:135-139 | the index names the three packed entries in the shard, drops the bf16 name, and keeps every other entry |
| QuantSchema.CloneGroup | prepare/quant_schema.py:142-151 | the added group declares what packing writes, whatever group_0 says, and every other group stays |
| QuantSchema.CloneTwice | prepare/quant_schema.py:142-151 | adding the group again changes nothing |
| PrepareScripts.QuantLmHead | prepare/quant_lm_head.py:40-78 | the script, run on the disk up to a kill anywhere, performs its plan: refuses without writing, or shard, config, index in order |
| PrepareScripts.QuantEmbed | prepare/quant_embed.py:39-78 | the same for the embeddings, with their own backup suffix and none for config and index |
| PrepareScripts.QuantMtp | prepare/quant_mtp.py:42-82 | the same for the MTP linears, which must share one shard, whose shard is written only if something changed |
| PrepareSteps.ScriptSurvivesKills | prepare/quant_lm_head.py:40-78 | each of the three scripts, gated by the index or not yet done, ends after any kill history as one clean run does |
| PrepareSteps.PrepareSurvivesKills | docker/prepare.sh:62-94 | the three scripts in one preparation, whichever are still to do, killed anywhere any number of times, end as one clean pass does with no temporary file left |
| PrepareResults.ScriptAchieves | prepare/quant_lm_head.py:40-78 | what each completed script leaves: weights packed from what they were, metadata and other tensors kept; its declared group, every name of the ignore list as often as it should be, all else of config.json kept; the index entries; every other file as it was |
| IgnoreLists.HeadIsNeverIgnored | prepare/quant_lm_head.py:67 | in every state of a killed preparation, an lm_head that the index names packed is not on the ignore list |
| IgnoreLists.LinearsNotIgnoredIff | prepare/quant_lm_head.py:68-70 | the same for the MTP linears, if and only if it holds at the start and lm_head is not still to do while a linear is packed |
| PrepareSteps.ModelIsReady | prepare/quant_lm_head.py:40-62 | a script that is still to do will not refuse if and only if config.json can be extended and the index names its bf16 weights in one shard that holds each of them packable or packed: the premise of the theorems above |
| PrepareSteps.ReadyStays | docker/prepare.sh:62-64 | a script that is still to do stays to do, and able to run, when another one has run |
| PrepareInvariants.ReachableIsSound | prepare/atomic_publish.py:12-15 | in every state reached by kills and re-runs, a weight the index names packed is in its shard with all three entries and config.json declares its group |
| PrepareBackups.BackupsArePristine | prepare/atomic_publish.py:67-74 | in every state of a killed preparation and for each of its scripts: the script's backup of a file holds what the file held when that script first started, or is older and unchanged, and where there is no backup the script has not changed the file; foreign backups stay |
| PrepareBackups.PreparationKeepsOriginals | prepare/quant_lm_head.py:60-74 | the same for the three scripts with the names of their backups: .bak, .bak_embed and .bak-mtp of a shard, .bak-quant and .bak-mtp of config.json and the index |
| PrepareBackups.WeightsAreNeverLost | prepare/atomic_publish.py:6-8 | through any kill history every bf16 weight a script packs is still in its file, or in that script's own backup of the file |
| PrepareBackups.SharedShardBackups | prepare/quant_embed.py:63-66 | with lm_head and embeddings in one shard, over all three scripts: .bak is the shard as it was, and without it the shard still holds bf16 lm_head; .bak_embed holds the bf16 embeddings, and without it the shard does |
| StreamHeads.StreamSurvivesKills | prepare/quant_heads_stream.py:137-214 | the streaming script, which has no gate, ends after any kill history as one clean run does |
| StreamResults.StreamAchieves | prepare/quant_heads_stream.py:137-214 | what a completed run leaves: each weight packed in its own shard from what it was, one pass or several, other tensors and the metadata kept; three declared groups, lm_head and the linears off the ignore list; the index entries; every other file as it was |
| StreamHeads.FoundIff | prepare/quant_heads_stream.py:131-172 | the lookups succeed if and only if each head lives in some shard and all MTP linears in one |
| StreamRun.QuantHeadsStream | prepare/quant_heads_stream.py:120-214 | the script on the disk performs that plan up to a kill, one pass per shard that holds a head, then the lookup of the MTP shard and the rest; it ends with an error exactly when one of its parts stops, with the parts before it done |
| StreamRefusals.RefusalTouchesIff | prepare/quant_heads_stream.py:137-174 | a run that ends with an error leaves config.json and the index alone, and the disk untouched if and only if no head pass it got to found a bf16 weight to pack |
| StreamRefusals.RefusedYetRewritten | prepare/quant_heads_stream.py:170-174 | a model without MTP weights on which the script stops after it has rewritten the shard |
| StreamBackups.StreamOriginalsKept | prepare/quant_heads_stream.py:112-117 | through any kill history .bak-orig and .bak-quant hold what the file held first, although one run may edit a shard twice; a file without a backup is untouched |
| DraftHead.ReachableDraftIsSound | prepare/build_draft_vocab.py:297-332 | from a model without a draft head, any runs with any id lists killed anywhere: if the index names the head, the id list is on disk and matches it |
| DraftHead.HeadRows | prepare/build_draft_vocab.py:305-308 | then head row i is lm_head row ids[i], codes and scale |
| DraftHead.DraftSurvivesKills | prepare/build_draft_vocab.py:312-332 | all kill histories end as a clean run if and only if an extras file or its backup is there at the start |
| DraftRun.BuildDraft | prepare/build_draft_vocab.py:297-332 | the script on the disk: refuses without writing, or publishes extras behind their backup, id list and index in order, up to a kill |
| DraftResults.DraftAchieves | prepare/build_draft_vocab.py:297-332 | what a completed run leaves: rows ids[i] of lm_head, codes, scales and shape, beside every other tensor and the metadata of the extras file, which is backed up once; the id list; the index entries; every other file as it was |
| DraftRun.WholePreparationSurvivesKills | docker/prepare.sh:62-83 | the quantization scripts and then the draft head: all kill histories end as one clean run if and only if the model starts with an extras file or its backup |
| FastVariant.FetchFast | prepare/fetch_fast_variant.py:30-53 | the script on the disk: refuses exactly a base directory without config.json; links and small copies once, a stop without a tokenizer, then the downloads, the index last |
| FastResults.FastAchieves | prepare/fetch_fast_variant.py:32-53 | what a completed run leaves: each base shard and small file the variant did not have, each downloaded file always, each from its own source; without a tokenizer no download |
| FastVariant.FastSurvivesKills | prepare/fetch_fast_variant.py:9-11 | any kill history of the assembly ends as one clean run does |
| FastVariant.FastIndexMeansComplete | prepare/fetch_fast_variant.py:49-52 | after any kill history the variant's index exists exactly when the variant is complete, and never without a base model and a tokenizer |
| FastVariant.VariantKeepsItsShards | prepare/atomic_publish.py:10-11 | requantizing the base afterwards changes nothing the variant reads through its hardlinks |
| FlashBlocks.SplitsPartition | fa2/headers/flash_fwd_kernel.h:538-547 | every block of the visible range is in exactly one split and no other block is in any, for every number of splits |
| FlashBlocks.VisibleByDistance | fa2/headers/mask.h:131-204 | a query sees the keys at most the window to either side of the position that is as far from the end of the keys as the query is from the end of the queries |
| FlashBlocks.Visit | fa2/headers/flash_fwd_kernel.h:924-1015 | the two loops together visit each block of a range once, in descending order, and only the first n_masking_steps are masked |
| FlashBlocks.RaggedIsSafe | fa2/headers/flash_fwd_kernel.h:917-926 | away from the even causal kernel, every unmasked block is visible in full to every row of the tile |
| FlashBlocks.EvenStepsExact | fa2/headers/flash_fwd_kernel.h:924-926 | for even block sizes, the smaller number of masked steps is right for all tiles if and only if the overhang divides the key block |
| FlashBlocks.DividingBlocksFit | fa2/headers/flash_fwd_kernel.h:924-926 | in particular when one block size divides the other |
| FlashBlocks.SeenIsVisited | fa2/headers/flash_fwd_kernel.h:538-543 | a key some query of the tile sees lies in a visited block and its V row is not cleared, also for windows that start before the first key |
| FlashBlocks.ClearedIsMasked | fa2/headers/flash_fwd_kernel.h:897-914 | a cleared V row is masked for every query of the tile |
| FlashWindow.UnclearedIsSeen | fa2/headers/flash_fwd_kernel.h:897-914 | the uncleared V rows are exactly those some query of the tile sees |
| FlashWindow.WindowedProduct | fa2/headers/flash_fwd_kernel.h:895-914 | whatever V holds elsewhere, NaN included, the product is the softmax numerator over the keys the tile sees |
| FlashSplitKv.OnlyFirstPassesEnd | fa2/headers/flash_fwd_kernel.h:938-953 | only the first block of a range, and none of an even kernel, holds positions past the keys, so the copies that do not fill them with zeros never meet one |
| FlashWindow.NaNSpreads | fa2/headers/flash_fwd_kernel.h:895-896 | without clearing, one NaN row makes the product NaN even at weight zero |
| FlashSoftmax.AttentionIsSoftmax | fa2/headers/softmax.h:170-186 | the attention the theorems are about: the sum of exp(score) times value over the sum of exp(score), over the visible keys, and ln of the latter |
| FlashSoftmax.NextHolds | fa2/headers/softmax.h:137-167 | rescaling by the running maximum keeps denominator and numerator of the keys so far, never NaN, with every score at most the maximum |
| FlashSoftmax.NormalizeHolds | fa2/headers/softmax.h:170-186 | normalisation gives the softmax mean and its log-sum-exp, or 0 and the given infinity when no key is seen |
| FlashCombine.Combine | fa2/headers/flash_fwd_kernel.h:1265-1355 | merging partial results by log-sum-exp is the softmax of their sums taken together, 0 and +inf if all are empty; no exponent is positive |
| FlashSplitKv.AttendSplit | fa2/headers/flash_fwd_kernel.h:548-1079 | one split, with its early exit, two loops and masks, is attention over exactly its range of blocks |
| FlashSplitKv.MaskAgrees | fa2/headers/mask.h:131-204 | on the blocks of each phase, the mask the kernel applies is the attention's own mask |
| FlashSplitKv.OneSplit | fa2/headers/flash_fwd_kernel.h:545-547 | split i attends exactly its own stretch of the keys, the stretches being consecutive |
| FlashSplitKv.SplitKv | fa2/headers/flash_fwd_kernel.h:538-591 | for every number of splits, and whatever V holds at cleared and unvisited rows, NaN included, the result is softmax attention over all visible keys and its log-sum-exp, 0 and +inf for a row that sees none, as without splitting |
| VarlenLayout.KeysStayInTheirSequence | fa2/headers/block_info.h:16-38 | the attended keys of a packed sequence are rows of its own range, after its left padding, where k_offset leads |
| VarlenLayout.FixedKeysStay | fa2/headers/block_info.h:16-38 | without cumulative lengths the attended keys are rows of the sequence's own slab, after its padding |
| VarlenLayout.UsedRoomIs | fa2/headers/block_info.h:16-24 | the rows a sequence uses, padding included, are those the launch says, or its cached and its new ones |
| VarlenLayout.QueriesStay | fa2/headers/block_info.h:28-31 | q_offset leads to the sequence's own query rows, packed or in slabs |
| VarlenLayout.KeysApart | fa2/headers/block_info.h:16-38 | no two attended keys of a batch share a row |
| VarlenLayout.DecodeIsInverse | fa2/headers/flash_fwd_kernel.h:1287-1289 | decoding a padded position gives a (batch, head, row) in range whose encoding it is |
| VarlenLayout.PaddedDecodes | fa2/headers/flash_fwd_kernel.h:1364-1369 | and every (batch, head, row) is the decoding of its position |
| VarlenLayout.PackedIsInjective | fa2/headers/flash_fwd_kernel.h:1290-1294 | no two real rows share a packed log-sum-exp address |
| VarlenLayout.PackedIsOnto | fa2/headers/flash_fwd_kernel.h:1290-1294 | every address of the packed buffer belongs to a real row |
| VarlenLayout.UnsplitIsPacked | fa2/headers/flash_fwd_kernel.h:1105-1107 | the unsplit path, empty tiles included, writes at the same packed addresses |
| VarlenLayout.LseTileIsPacked | fa2/headers/flash_fwd_kernel.h:33-50 | so does the tile layout of the unsplit kernel |
| VarlenLayout.SplitIsCombined | fa2/headers/flash_fwd_kernel.h:552-560 | a split leaves its results where the combine kernel reads split s of the same row |
| VarlenLayout.UnsplitOutputIsCombined | fa2/headers/flash_fwd_kernel.h:1101-1102 | the unsplit output row has the address the combine kernel computes |
| VarlenLayout.OutputRowsApart | fa2/headers/flash_fwd_kernel.h:1370-1379 | with heads packed inside a row, different rows write different output elements |
| CombineStore.StoreAll | fa2/headers/flash_fwd_kernel.h:1281-1394 | over all thread blocks, each real row's log-sum-exp and output land at its packed place; every element of the log-sum-exp buffer and every (token, head) cell of the output is written exactly once, and nothing else |
| MtpAttention.MergedAttention | drafter/train_mtp.py:112-134 | the causal result merged with the chain of single keys through the running maximum is one dense softmax over the keys of all depths under depth_mask |
| MtpAttention.MaskAt | drafter/train_mtp.py:141-153 | the mask of row t: depth-1 columns up to t and column t of every later depth |
| GptqFeedback.QuantizedIsExplained | drafter/gptq_utils.py:43-73 | there are errors err such that, with x_c = w_c less the sum of err_j h_jc over the columns before, every code is the nearest in range to x_c over its scale, err_c h_cc is what rounding moves x_c by, and every scale is chosen from its group as fed by the groups before it |
| Gptq.ClippingNeverHurts | drafter/gptq_utils.py:50-60 | the searched scale rounds a group no worse than the unclipped one |
| Gptq.BlockStep | drafter/gptq_utils.py:62-70 | after each column of a block, its weights are the reference's, and the columns right of it lag by exactly the errors not yet applied |
| Gptq.DivisionRecovers | drafter/gptq_utils.py:72 | the final division by the scale gives back the integer chosen in the loop |
| GptqBlocks.Quantize | drafter/gptq_utils.py:43-73 | for every row and every width that is a multiple of the group, the lazily updated blocks give the codes and scales of the algorithm that updates all remaining columns after each column, and these are explained by fed-back errors as above |
| GptqBlocks.QuantizeInChunks | drafter/gptq_lm_head.py:61-67 | quantizing chunks of rows and concatenating gives the same, for every chunk size |
| GptqRounding.UncorrelatedIsRoundToNearest | drafter/gptq_utils.py:77-84 | with no correlation between columns GPTQ is round-to-nearest, codes and scales |
| Hessian.EntryIs | drafter/gptq_utils.py:9-17 | the Hessian of n rows has 2 / n times the sum over the rows of the product of two columns in each entry |
| Hessian.Accumulate | drafter/gptq_utils.py:9-17 | a batch turns the Hessian of the rows before into the Hessian of all rows so far |
| Hessian.ReduceWide | drafter/capture_dflash2.py:173-177 | accumulating in slices gives the Hessian of all rows, for every slice size |
| Hessian.HessianIsDetermined | drafter/gptq_utils.py:9-17 | two Hessians of the same rows agree entry by entry, whatever the order and the batches |
| Hessian.Blend | drafter/quant_dflash2.py:72-73 | the row-weighted blend of two Hessians is the Hessian of both row streams together |
| ByteStrings.LittleEndianBytes | prepare/quant_heads_stream.py:94 | byte k of the length is its digit of weight 256^k |
| Safetensors.HeaderReadsBack | prepare/quant_heads_stream.py:91-95 | a written header reads back, and the payload starts at a multiple of 8 |
| Safetensors.TensorReadsBack | prepare/quant_heads_stream.py:58-62 | of every name a reader finds the last tensor written under it, bytes included |
| StreamRewrite.CopyRange | prepare/quant_heads_stream.py:98-105 | chunked copying yields exactly the range, or reports a short read when the file ends before it |
| StreamRewrite.Rewrite | prepare/quant_heads_stream.py:66-109 | the rewrite writes the kept tensors in data order and then the added ones, returns the payload size, and stops on an unreadable header or a short read |
| RewriteRoundTrip.HeaderIsRewritten | prepare/quant_heads_stream.py:70-95 | the header that reads back has the source's metadata and names each kept and each added tensor once and nothing else; its payload is the returned size and starts at a multiple of 8 |
| RewriteRoundTrip.ShortReadIff | prepare/quant_heads_stream.py:98-104 | the rewrite stops on a short read if and only if a kept tensor has bytes past the end of the file |
| RewriteRoundTrip.TensorsAreRewritten | prepare/quant_heads_stream.py:66-109 | every name reads back as what was added under it, as absent if dropped, else exactly as in the source |
| RewriteRoundTrip.SortedInOrder | prepare/quant_heads_stream.py:71-72 | the kept tensors follow the order of their data in the source |
| RewriteRoundTrip.OutputTilesIff | prepare/quant_heads_stream.py:70-106 | in the file that is written, the ranges of the header that reads back tile the payload, of the size returned, if and only if no source tensor with bytes is both kept and added |
| ResumableLog.File.LoadCompleted | drafter/generation_state.py:42-74 | loading returns the ids and repairs the tail, or fails with the file unchanged; the separator is never written after a truncation |
| LogLines.LoadIsLineByLine | drafter/generation_state.py:42-74 | over the lines of any file: loading succeeds if and only if every line but the last has an id and the last has one or does not parse; then the ids are exactly those of the lines that parse and at most the last line is dropped; otherwise it fails at the first bad line |
| ResumableLog.LoadIsStable | drafter/generation_state.py:42-74 | for any file whatever, what loading leaves loads again to the same ids unchanged |
| ResumableLog.LoadTorn | drafter/generation_state.py:45-47 | of a log torn at any byte exactly the fully written records survive, and their ids are returned |
| ResumableLog.Generate | drafter/gen_data.py:31-93 | the resume loop, chunk by chunk, appends a record for every remaining accepted prompt up to the cut |
| LogRecords.OutputIsExactly | drafter/gen_data.py:34-85 | a run appends, in the order of the prompts, one record for each accepted prompt within the limit that has none, with its own id and what was generated for it |
| LogHistories.RunKeepsLog | drafter/gen_data.py:36-93 | a run cut at any byte loses no record and keeps exactly the new records all of whose bytes were written |
| LogHistories.HistoryIsLog | drafter/gen_data.py:36-93 | every history of cut runs leaves whole newline-terminated records, of distinct ids for distinct accepted prompts |
| LogHistories.UncutRunFinishes | drafter/gen_data.py:36-93 | a run that is not cut leaves a record for every accepted prompt it is limited to |
| LogHistories.DistinctOnDiskIff | drafter/gen_data.py:36-37 | ids on disk are distinct after all histories if and only if no two accepted prompts share an id |
| MicroBatch.Pack | drafter/train_mtp.py:266-276 | the batches are the sorted items, each within the budget or single, and no grouping of the same items within the budget has fewer batches |
| MicroBatch.SortedIsStable | drafter/train_mtp.py:267 | sequences of the same length keep their order |
| MicroBatch.FilledIsMinimal | drafter/train_mtp.py:266-276 | batches without room for the next sequence are as few as any grouping of all but the items already gone |
| ScratchCapacity.EligibleIff | bench/mq3d_capacity_property.py:30-40 | a batch is eligible if and only if its size is within both limits, each query within the length limit and the tokens within the budget |
| ScratchCapacity.CapacityIsExact | bench/mq3d_capacity_property.py:25-40 | the derived capacity is the largest total of query tokens of any eligible batch: all fit and one attains it |
| CallBinding.Binds | scripts/port-changed-signatures.py:130-152 | the loop decides exactly: positions fit, each keyword finds a free slot or **kwargs, and everything required is given |
| CallBinding.AcceptsIff | scripts/port-changed-signatures.py:130-152 | the slot-filling procedure of section 6.3.4 of the Python Language Reference, step by step, in closed form |
| CallBinding.BindsIsPython | scripts/port-changed-signatures.py:130-152 | Python accepts exactly the calls the script binds, less those where self slips through |
| CallBinding.AgreesIff | scripts/port-changed-signatures.py:133-134 | the two agree on all calls of a signature if and only if no self is passed, or it lands in a parameter beside no **kwargs, or in *args |

## Left out

- Floating-point rounding: values are exact reals. fp16 and bf16 casts of scales, the base-2 folding of exp and fp8
  conversion are not modelled.
- `pack_to_int32`, torch's Cholesky factorisation, the damping and the zeroing of dead columns before it: GPTQ starts
  from any matrix with a non-zero diagonal as the inverse factor, and codes are kept as integers.
- JSON, pickles and the safetensors library: codecs with stated laws. In the preparation model a shard is its tensors,
  not its bytes; the bytes of a rewrite are in `Safetensors` and `StreamRewrite`.
- Power loss: fsync is not modelled. A kill stops a process between two file-system operations, and a write that did
  not finish leaves a torn temporary file.
- The order of keys in JSON files and of entries in a directory; the module of the embeddings found by scanning the
  index is a parameter, as is the listing of the base directory.
- `docker/prepare.sh` computing its list of steps once per start: the model asks each gate when its step comes, which
  gives the same steps because no script completes another one's gate. Downloading and the checks that lead to it,
  template rewriting and the DFlash2 drafter are left out.
- Rebuilding an active draft head with another id list; counting tokens to choose the list.
- `compute_attn_1rowblock`, the kernel without split-KV, is modelled only in the addresses of its log-sum-exp tile.
- `query_group_size` above 1, ALiBi, softcap, rotary embeddings, dropout, paged key blocks and Append_KV.
- CUDA threads, shared-memory layout, asynchronous copies and index widths: loops are sequential and integers unbounded.
- The padded and the group-swapped layouts of the log-sum-exp buffer, which do not remap ragged rows.
- One output column at a time: head dimension and the query-key products are given as scores and values.
- `CombineStore.StoreAll`: the order in which thread blocks write is fixed; that no place is written twice is what makes
  it immaterial.
- `exclusive_output`: that at most one process holds the lock is the operating system's promise.
- `Sig.binds` with `launch` or `stc`, which rewrite the keywords first, and signatures with
  positional-only parameters.
- MTP training itself, `rtn_quantize` on a whole matrix and `dequant`, which only repeat one expression.
- HTTP clients, benchmarks, metrics and repository checkers: plumbing without a property that spans operations.
