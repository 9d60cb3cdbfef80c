# Verified models of the Quixicore XPU kernels

A Dafny model of the five parts of the kernel library whose correctness does not follow
from reading one loop, with proofs of what they promise on all inputs and all
interleavings.

* **All-reduce** (`AllReduce*.dfy`). The peer-to-peer collective as a step relation over
  all ranks and work-groups: stage a cell, launch, latch a target, publish a flag, observe
  a flag, bump the generation, accumulate, store, copy, retire. `+` and the casts are
  uninterpreted, because the fixed rank order is what makes the ranks agree. The loops of
  one work-item are methods over arrays in `AllReduceKernel.dfy`.
* **Mixture of experts** (`Moe*.dfy`, `GroupedGemm.dfy`). Count, scan, atomic scatter,
  grouped GEMM and unpermute, each as code over arrays under an arbitrary schedule, and
  their composition.
* **Attention** (`Softmax.dfy`, `Paged*.dfy`, `MergeStates.dfy`,
  `AttentionMeaning.dfy`, `PrefillMeaning.dfy`). Online softmax over split
  key ranges and page tables, prefill bands, merging by log-sum-exp, and the paged cache,
  over exact reals; of the exponential and the logarithm only their laws are used.
* **TurboQuant** (`BitStream.dfy`, `Hadamard.dfy`, `Centroids.dfy`, `KeyCodec.dfy`,
  `ValueCodec.dfy`, `BitMeaning.dfy`, `KeyMeaning.dfy`, `ValueMeaning.dfy`). Bit packing, the in-place Walsh-Hadamard transform, the key quantiser
  and the affine value quantiser, over bytes and exact reals with the fp16 rounding as a
  parameter.
* **Gated delta rule** (`DeltaRule.dfy`, `GatedDelta.dfy`, `DeltaPieces.dfy`,
  `BatchCuts.dfy`, `GateLaws.dfy`, `DeltaMeaning.dfy`, `QwenStep.dfy`, `QwenMeaning.dfy`). The varlen recurrence on slot state in place, its agreement with
  token-by-token decoding and any other way of cutting a batch, and the fused Qwen step.

The `*Meaning.dfy` modules restate what the kernels leave in terms of the raw buffers: flat
addresses, explicit sums and single bits.
`CodecFormat.dfy`, `Division.dfy`, `FiniteSums.dfy`, `RealSums.dfy` and
`Vectors.dfy` hold shared constants and arithmetic.
`dafny verify dfyconfig.toml` checks the whole project.

## Assumptions

* All-reduce: every rank issues the same sequence of (numel, threshold) calls; a rank
  stages its next call after its previous reduce kernel has ended; the work-items of a
  group that take part in a rendezvous use one read of `generation`; flags and data become
  visible in program order; spins block until they succeed; generations do not wrap.
* The output and its partner buffers do not alias, and slot mappings name a slot once
  (`PagedCache.Distinct`, `GatedDelta.SlotsApart`); otherwise the kernels race.
* Attention scores are finite; a running maximum may be minus infinity. Softmax and decode use
  of the exponential only that it is positive and turns sums into products
  (`ExpLog.Exponential`); the laws of the logarithm are needed for log-sum-exps alone.
* TurboQuant rotation: `KeyFormat.Exact` says that the signs are +-1 and that the inverse
  root squared times the head size is one.

## Findings

* Merging partial attention states
  (`kernels/attention/merge_attn_states/variants/xpu_sycl/merge_attn_states.sycl.cpp:32-47`)
  with a sink is right exactly under the conditions of `MergeStates.SinkInOnePartition` and
  `MergeStates.SinkInBothPartitions`: the empty partition drops its sink, and a sink given to
  two partitions that both have keys counts twice.
* The turboquant launcher
  (`kernels/quantization/turboquant/variants/xpu_sycl/turboquant.sycl.cpp:69-72`) accepts head
  sizes 96, 160, 192 and 224, on which the loops of the transform
  (`kernels/quantization/turboquant/turboquant_codec.hpp:182-195`) leave the n cells:
  `Hadamard.SpansFitIffPower`, `KeyCodec.HeadSizesTheTransformTakes`. The kernel's header
  (`kernels/quantization/turboquant/turboquant_kernel.hpp:21-22`) documents head sizes 64, 128
  and 256 only, so this is a guard looser than the documentation; and the transform runs only
  when key_bits is below 8
  (`kernels/quantization/turboquant/turboquant_codec.hpp:204-208`).
* The decay of the gated delta rule is not decreasing in its input everywhere. The soft plus
  switches to its linear branch at 20
  (`kernels/linear_attention/gated_delta_rule/variants/xpu_sycl/gated_delta_rule.sycl.cpp:35-37`)
  a little below the logarithmic one, so just above 20 an input decays no more than 20 does:
  `GateLaws.DecayPlateau`; `GateLaws.DecayDecreases` says exactly when the larger of two
  inputs decays more.
* When a group's scale rounds to zero the stored zero is lo itself and not lo - cmin
  (`kernels/quantization/turboquant/turboquant_codec.hpp:284-289`), so on the signed 8-bit
  grid lo lands on code 0; the error bound is stated with that offset.

## Model

| member | source | states |
|---|---|---|
| AllReduceRuns.EveryRunComputesTheSum | kernels/collectives/all_reduce/variants/xpu_sycl/all_reduce.sycl.cpp:123-204 | For every interleaving and any mix of one-shot and two-shot calls on the same regions, a rank that has finished call n has in each out cell the cast of the rank-ordered sum of that call's inputs; with `+` uninterpreted, so all ranks and both algorithms agree exactly |
| AllReduceRuns.EveryRunTerminates | kernels/collectives/all_reduce/variants/xpu_sycl/all_reduce.sycl.cpp:82-93 | Every interleaving of a finite call sequence is shorter than a bound known in advance, and one that has not completed every call on every rank can be continued |
| AllReduceRuns.RendezvousHolds | kernels/collectives/all_reduce/variants/xpu_sycl/all_reduce.sycl.cpp:77-93 | At every point of every run: a flag from rank k is at most the number of rendezvous k's same-numbered group has begun, no group is past a rendezvous that a peer has not begun, and begun counts of same-numbered groups differ by at most one |
| AllReduceRuns.StagingIsSafe | kernels/collectives/all_reduce/variants/xpu_sycl/all_reduce.sycl.cpp:120-129 | A staging store for the next call never hits a cell whose old content somebody still has to read: whoever still wants the cell wants the new call's value and has not begun reading |
| AllReduceRuns.OverwriteIsSafe | kernels/collectives/all_reduce/variants/xpu_sycl/all_reduce.sycl.cpp:177-187 | The two-shot overwrite of a rank's own chunk: nobody still has to read the input it replaces, and whoever has yet to gather it is the same-numbered group of the same call |
| AllReduceRuns.RunAll | kernels/collectives/all_reduce/variants/xpu_sycl/all_reduce.sycl.cpp:123-204 | Under any scheduler that picks enabled steps the collective sequence runs to completion with every out cell of every call and rank equal to the rank-ordered sum |
| AllReduceProgress.DeadlockFree | kernels/collectives/all_reduce/variants/xpu_sycl/all_reduce.sycl.cpp:82-93 | In every reachable state short of the final one some step of some group is enabled |
| AllReduceProgress.WaitingChainDescends | kernels/collectives/all_reduce/variants/xpu_sycl/all_reduce.sycl.cpp:82-93 | If nothing could move, a group that waits would have a waiting peer at a strictly earlier rendezvous, so waiting cannot be circular |
| AllReduceProgress.StepDecreases | kernels/collectives/all_reduce/variants/xpu_sycl/all_reduce.sycl.cpp:131-204 | Every step of every group strictly lowers one global measure |
| AllReduceProgress.AnnouncedKept | kernels/collectives/all_reduce/variants/xpu_sycl/all_reduce.sycl.cpp:82-92 | A step keeps the fact that whoever is past publishing in a rendezvous has its flag visible at that peer, and also keeps the main invariant |
| AllReduceValues.StepKeepsInv | kernels/collectives/all_reduce/variants/xpu_sycl/all_reduce.sycl.cpp:123-204 | Whatever enabled step comes next, the protocol invariant (bookkeeping, flags, staging contents, partial sums, delivered results) holds after it |
| AllReduceValues.ReductionReadsInput | kernels/collectives/all_reduce/variants/xpu_sycl/all_reduce.sycl.cpp:138-143 | Each load of the reduction reads the current call's input of the rank it names, not an earlier or later call's and not a reduced value |
| AllReduceValues.GatherReadsReduced | kernels/collectives/all_reduce/variants/xpu_sycl/all_reduce.sycl.cpp:192-199 | Each load of the all-gather reads the fully reduced value that the same-numbered group of the owner produced before the mid rendezvous |
| AllReduceSync.FlagsGrow | kernels/collectives/all_reduce/variants/xpu_sycl/all_reduce.sycl.cpp:85-85 | No step lowers any flag |
| AllReduceSync.PeersInStep | kernels/collectives/all_reduce/variants/xpu_sycl/all_reduce.sycl.cpp:174-202 | While a group works between two rendezvous every peer's same-numbered group is in the same call and at most one rendezvous on |
| AllReduceGeometry.SlicesPartition | kernels/collectives/all_reduce/variants/xpu_sycl/all_reduce.sycl.cpp:154-172 | For every payload length and world size an element lies in exactly one (owner, block) slice, and that owner and block exist; short chunks and a ragged last chunk included |
| AllReduceGeometry.ChunkSizes | kernels/collectives/all_reduce/variants/xpu_sycl/all_reduce.sycl.cpp:154-172 | Chunks are as short as world equal chunks can be, block slices as short as 64 equal ones, and no slice is longer |
| AllReduceGeometry.StridesCover | kernels/collectives/all_reduce/variants/xpu_sycl/all_reduce.sycl.cpp:138-139 | Every element of the one-shot payload belongs to an existing work-group |
| AllReduceKernel.LanesCoverSlices | kernels/collectives/all_reduce/variants/xpu_sycl/all_reduce.sycl.cpp:180-181 | The elements of a slice are exactly those that the group's work-items visit, each by one work-item |
| AllReduceKernel.LanesCoverStrides | kernels/collectives/all_reduce/variants/xpu_sycl/all_reduce.sycl.cpp:138-139 | The same for the grid-stride loop of the one-shot kernel |
| AllReduceKernel.SumRanks | kernels/collectives/all_reduce/variants/xpu_sycl/all_reduce.sycl.cpp:140-143 | The accumulation loop is the left fold of `+` from zero over what each rank has staged at the element, rank 0 first |
| AllReduceProtocol.PartialSumStep | kernels/collectives/all_reduce/variants/xpu_sycl/all_reduce.sycl.cpp:140-143 | One more rank adds its input to the accumulator, which starts from zero |
| AllReduceKernel.PartialSumIsFold | kernels/collectives/all_reduce/variants/xpu_sycl/all_reduce.sycl.cpp:140-143 | The protocol's partial sum after k ranks is that fold over the first k inputs |
| AllReduceKernel.StageAll | kernels/collectives/all_reduce/variants/xpu_sycl/all_reduce.sycl.cpp:123-129 | The staging kernel's work-items together copy the payload and nothing else |
| AllReduceKernel.OneShotLane | kernels/collectives/all_reduce/variants/xpu_sycl/all_reduce.sycl.cpp:138-145 | A one-shot work-item stores in exactly the cells of its stride the cast fold of what each rank has staged there |
| AllReduceKernel.ReduceScatterLane | kernels/collectives/all_reduce/variants/xpu_sycl/all_reduce.sycl.cpp:180-187 | A two-shot work-item overwrites exactly its cells of the rank's own slice with the cast fold of what each rank had staged there |
| AllReduceKernel.GatherLane | kernels/collectives/all_reduce/variants/xpu_sycl/all_reduce.sycl.cpp:193-199 | A two-shot work-item copies from each element's owner exactly its share of every owner's slice and nothing else |
| AllReduceKernel.OneShotCall | kernels/collectives/all_reduce/variants/xpu_sycl/all_reduce.sycl.cpp:138-145 | When every rank's staging holds its input of call n, a one-shot work-item leaves the collective's result in each cell of its stride |
| AllReduceKernel.ReduceScatterCall | kernels/collectives/all_reduce/variants/xpu_sycl/all_reduce.sycl.cpp:180-187 | From the same staging a two-shot work-item leaves the result in each cell of its share of the rank's own slice |
| AllReduceKernel.GatherCall | kernels/collectives/all_reduce/variants/xpu_sycl/all_reduce.sycl.cpp:193-199 | When every owner's slice holds the result, so do the work-item's output cells |
| MoePermute.CountRows | kernels/moe/moe_permute/variants/xpu_sycl/moe_permute.sycl.cpp:47-63 | Under any interleaving of the atomic increments rows_per_expert[e] ends as the number of pairs routed to e |
| MoePermute.Scan | kernels/moe/moe_permute/variants/xpu_sycl/moe_permute.sycl.cpp:64-75 | The scan leaves in cursors[e] the number of rows of all earlier experts |
| MoePermute.Scatter | kernels/moe/moe_permute/variants/xpu_sycl/moe_permute.sycl.cpp:76-94 | Under any interleaving of the work-items' instructions: row_map on valid pairs is a bijection onto the rows, each expert's pairs fill exactly its segment, invalid pairs map to -1, and each row holds its token's hidden vector |
| MoePermute.ClaimKeeps | kernels/moe/moe_permute/variants/xpu_sycl/moe_permute.sycl.cpp:85-86 | A fetch_add hands out a row of the pair's own segment that no pair has, whatever was claimed before |
| MoePermute.NextRowIsFresh | kernels/moe/moe_permute/variants/xpu_sycl/moe_permute.sycl.cpp:85-86 | The row that the next fetch_add returns was never handed out |
| MoePermute.CursorsInside | kernels/moe/moe_permute/variants/xpu_sycl/moe_permute.sycl.cpp:85-86 | No cursor runs past the end of its segment |
| MoeRouting.SegmentUnique | kernels/moe/moe_permute/variants/xpu_sycl/moe_permute.sycl.cpp:69-73 | A row lies in one expert's segment only |
| MoePipeline.PrefixOfCounts | kernels/moe/moe_permute/variants/xpu_sycl/moe_permute.sycl.cpp:69-73 | The first row of expert e is the number of pairs routed to the experts before it |
| GroupedGemm.TilesFit | kernels/moe/grouped_qgemm/variants/xpu_sycl/grouped_qgemm.sycl.cpp:50-79 | For all row counts the number of real tiles fits the static grid ceil(M/8)+E |
| GroupedGemm.ExactCover | kernels/moe/grouped_qgemm/variants/xpu_sycl/grouped_qgemm.sycl.cpp:83-148 | Each element of C is stored by exactly one tile, that tile is inside the static grid, and its expert owns the row; zero counts allowed |
| GroupedGemm.TileOwnerUnique | kernels/moe/grouped_qgemm/variants/xpu_sycl/grouped_qgemm.sycl.cpp:87-88 | A tile index has one owning expert |
| GroupedGemm.Locate | kernels/moe/grouped_qgemm/variants/xpu_sycl/grouped_qgemm.sycl.cpp:85-93 | The walk finds the expert whose tiles contain the index, and the expert's first row |
| GroupedGemm.TileKernel | kernels/moe/grouped_qgemm/variants/xpu_sycl/grouped_qgemm.sycl.cpp:83-148 | A work-group stores exactly its in-range elements, each as row times the owning expert's weights times its scale, or nothing past the real tile count |
| GroupedGemm.Accumulate | kernels/moe/grouped_qgemm/variants/xpu_sycl/grouped_qgemm.sycl.cpp:104-135 | The masked depth-tile loop accumulates full inner products, zero for rows past the expert's last |
| GroupedGemm.Launch | kernels/moe/grouped_qgemm/variants/xpu_sycl/grouped_qgemm.sycl.cpp:65-150 | With the work-groups in any order every row of every segment is multiplied by its own expert's weights, and other rows keep their content |
| MoePipeline.Unpermute | kernels/moe/moe_permute/variants/xpu_sycl/moe_permute.sycl.cpp:102-115 | Each token's output is the sum over its choices j of topk_weights[t*topK+j] times the row that row_map names, over the pairs with a row |
| MoePipeline.RowMapReadsBack | kernels/moe/moe_permute/variants/xpu_sycl/moe_permute.sycl.cpp:85-91 | Reading a pair's product back through row_map gives its own expert's output for its own token, wherever the race put it |
| MoePipeline.MoeForward | kernels/moe/moe_permute/variants/xpu_sycl/moe_permute.sycl.cpp:76-116 | End to end: for every interleaving of counting and scatter and every order of GEMM and unpermute work-groups, out[t, n] is the sum over j of the weight of pair t*topK+j times the inner product of hidden row t with row n of expert ids[t*topK+j], times its scale, over ids in range only |
| Softmax.OnlineSum | kernels/attention/paged_attention/variants/xpu_sycl/paged_attention_decode.sycl.cpp:121-124 | One key of the online recurrence keeps the running maximum the maximum and the running sum the softmax denominator at that scale |
| Softmax.OnlineValue | kernels/attention/paged_attention/variants/xpu_sycl/paged_attention_decode.sycl.cpp:125-129 | The same for the value accumulator |
| Softmax.TwoPassIsRatio | kernels/attention/paged_attention/variants/xpu_sycl/paged_attention_decode.sycl.cpp:166-168 | The shift by the maximum cancels: two-pass softmax is the ratio of unshifted sums, sink included |
| PagedAttention.LanesSumAll | kernels/attention/paged_attention/variants/xpu_sycl/paged_attention_decode.sycl.cpp:114-120 | The sub-group reduction over lane-interleaved slices is the plain sum |
| PagedAttention.SplitsCover | kernels/attention/paged_attention/variants/xpu_sycl/paged_attention_decode.sycl.cpp:84-92 | For every split count the splits cover the window exactly |
| PagedAttention.SplitsChain | kernels/attention/paged_attention/variants/xpu_sycl/paged_attention_decode.sycl.cpp:91-92 | Each split starts where the earlier ones end, so no key is counted twice |
| PagedAttention.OnlineRange | kernels/attention/paged_attention/variants/xpu_sycl/paged_attention_decode.sycl.cpp:107-130 | The key loop over a range with page-table holes leaves maximum, sum and accumulators of exactly the kept keys |
| PagedAttention.PartialKernel | kernels/attention/paged_attention/variants/xpu_sycl/paged_attention_decode.sycl.cpp:94-138 | A (row, split) work-group leaves that state in its workspace row and touches no other |
| PagedAttention.ReduceKernel | kernels/attention/paged_attention/variants/xpu_sycl/paged_attention_decode.sycl.cpp:144-169 | Merging the splits' states gives two-pass softmax attention over all kept keys, zero when none is kept |
| PagedAttention.DecodeLaunch | kernels/attention/paged_attention/variants/xpu_sycl/paged_attention_decode.sycl.cpp:67-170 | The whole decode, work-groups in any order: for every split count, window, page table with holes and optional sink O is the two-pass softmax average over the kept keys |
| AttentionMeaning.DecodeBatch | kernels/attention/paged_attention/variants/xpu_sycl/paged_attention_decode.sycl.cpp:67-170 | In terms of the buffers, for every sequence b and head h: O is the average of the values weighted by exp(score) and the sink, over the positions k below seq_lens[b], at most window_left back from the last, whose entry b*max_pages + k/page_size of the block table is not negative, each read at page*stride + ((k%page_size)*kv_heads + h/gqa)*d; zero when there is none |
| AttentionMeaning.DecodeIsDense | kernels/attention/paged_attention/variants/xpu_sycl/paged_attention_decode.sycl.cpp:107-131 | After a scatter of the tokens of every sequence, decode attends for each sequence of the batch to that sequence's own token list in its window |
| AttentionMeaning.KeptIsAttention | kernels/attention/paged_attention/variants/xpu_sycl/paged_attention_decode.sycl.cpp:107-168 | Two-pass softmax over the kept keys of a range is the weighted average over the admitted positions, by one defining equation |
| AttentionMeaning.AttentionUnique | kernels/attention/paged_attention/variants/xpu_sycl/paged_attention_decode.sycl.cpp:166-168 | That equation has one solution |
| PagedPrefill.Locate | kernels/attention/paged_attention/variants/xpu_sycl/paged_attention_prefill.sycl.cpp:68-71 | The scan finds the sequence that owns the token |
| PagedPrefill.OwnerUnique | kernels/attention/paged_attention/variants/xpu_sycl/paged_attention_prefill.sycl.cpp:68-71 | No other sequence owns it |
| PagedPrefill.Band | kernels/attention/paged_attention/variants/xpu_sycl/paged_attention_prefill.sycl.cpp:83-97 | The signed band arithmetic names the causal and windowed key range, empty ranges included |
| PagedPrefill.PrefillRow | kernels/attention/paged_attention/variants/xpu_sycl/paged_attention_prefill.sycl.cpp:64-147 | A work-item's output row and log-sum-exp are those of two-pass softmax over the kept keys of its band, other rows and masked sequences untouched |
| PagedPrefill.PrefillLaunch | kernels/attention/paged_attention/variants/xpu_sycl/paged_attention_prefill.sycl.cpp:62-148 | With the work-items in any order every row and log-sum-exp of an unmasked sequence is that of two-pass softmax over the kept keys of its band, and rows of masked sequences are unchanged |
| PagedPrefill.BandIsWindow | kernels/attention/paged_attention/variants/xpu_sycl/paged_attention_prefill.sycl.cpp:83-93 | The band of the only query of a causal sequence is decode's window |
| PrefillMeaning.BandAdmits | kernels/attention/paged_attention/variants/xpu_sycl/paged_attention_prefill.sycl.cpp:83-97 | The band holds exactly the positions the masks admit: with the token cuQ[b+1] - tok before the end of the keys, causal tokens see up to themselves, windows reach their length back and ahead |
| PrefillMeaning.PrefillBatch | kernels/attention/paged_attention/variants/xpu_sycl/paged_attention_prefill.sycl.cpp:62-148 | In terms of the buffers, for every token and head: output and log-sum-exp are those of the admitted positions, read through the block table or at ((b*max_seqlen_k + k)*kv_heads + h/gqa)*d |
| PrefillMeaning.CausalRowIsDecode | kernels/attention/paged_attention/variants/xpu_sycl/paged_attention_prefill.sycl.cpp:83-145 | Every token of a causal sequence, not only a lone one: its row is the decode row of the same query, head, window, cache and sink at the context length that ends at the token |
| PagedPrefill.OneQueryPrefillIsDecode | kernels/attention/paged_attention/variants/xpu_sycl/paged_attention_prefill.sycl.cpp:83-145 | A causal one-query prefill row equals the decode row of the same sequence, head, window, cache and sink, for every split count |
| MergeStates.MergeAdds | kernels/attention/merge_attn_states/variants/xpu_sycl/merge_attn_states.sycl.cpp:32-47 | Merging adds softmax weights and weighted values, whatever the two partials are |
| MergeStates.MergeIsUnion | kernels/attention/merge_attn_states/variants/xpu_sycl/merge_attn_states.sycl.cpp:32-47 | Merging the results of two key sets, sinks absent, is attention over both, log-sum-exp and empty partitions included |
| MergeStates.MergeCommutes | kernels/attention/merge_attn_states/variants/xpu_sycl/merge_attn_states.sycl.cpp:32-47 | Merging commutes |
| MergeStates.MergeAssociates | kernels/attention/merge_attn_states/variants/xpu_sycl/merge_attn_states.sycl.cpp:32-47 | Merging associates |
| MergeStates.EmptyIsUnit | kernels/attention/merge_attn_states/variants/xpu_sycl/merge_attn_states.sycl.cpp:36-46 | The empty partition is the unit, exactly for partials whose output is zero when their log-sum-exp is minus infinity |
| MergeStates.SinkInOnePartition | kernels/attention/merge_attn_states/variants/xpu_sycl/merge_attn_states.sycl.cpp:32-47 | With a sink in the first partition only, merging is attention with the sink over both key sets if and only if that partition has a key or the other has none |
| MergeStates.SinkInBothPartitions | kernels/attention/merge_attn_states/variants/xpu_sycl/merge_attn_states.sycl.cpp:32-47 | With the sink in both, if and only if one partition has no key |
| PagedCache.AddrInjective | kernels/serving/variants/xpu_sycl/kv_cache_paged.sycl.cpp:39-41 | With non-overlapping pages different (slot, element) pairs live at different addresses |
| PagedCache.ScatterLaunch | kernels/serving/variants/xpu_sycl/kv_cache_paged.sycl.cpp:33-53 | In any order of work-items the named slots hold the tokens, keys and values each by their own encoder, and no other cell changes; negative slots are skipped |
| PagedCache.GatherLaunch | kernels/serving/variants/xpu_sycl/kv_cache_paged.sycl.cpp:100-124 | Each gathered token is what its slot holds, zero for a negative slot |
| PagedCache.ScatterGather | kernels/serving/variants/xpu_sycl/kv_cache_paged.sycl.cpp:33-124 | Gathering after scattering returns each token as decode after encode leaves it, with separate encoders and decoders for keys and values |
| PagedCache.AddressesAgree | kernels/attention/paged_attention/variants/xpu_sycl/paged_attention_decode.sycl.cpp:108-113 | The attention kernels' address of a key component is the writer's address of the same element |
| PagedCache.PagedIsDense | kernels/attention/paged_attention/variants/xpu_sycl/paged_attention_decode.sycl.cpp:107-131 | After scattering the tokens of a sequence at the slots blockTable(b*maxPages + k/pageSize)*pageSize + k%pageSize, attention through the page table is attention over the dense token list, keys and values each as their own decode after encode leaves them |
| BitStream.PackCodes | kernels/quantization/turboquant/turboquant_codec.hpp:156-169 | Read as a base-256 number the packed row is the masked codes read as a base-2^bits number, hence below 2^(bits*n) with all unused high bits zero; bytes past the row are unchanged |
| BitStream.PackStep | kernels/quantization/turboquant/turboquant_codec.hpp:161-167 | Or-ing in one code, straddling a byte or not, adds the code times its weight to the row's number |
| BitStream.UnpackReads | kernels/quantization/turboquant/turboquant_codec.hpp:171-180 | Unpacking extracts bits [i*bits, (i+1)*bits) of the row's number, from one byte or two |
| BitStream.UnpackPacked | kernels/quantization/turboquant/turboquant_codec.hpp:156-180 | From a packed row code i comes back, for every n, every width from 1 to 8 and every position |
| BitStream.RowHoldsCodes | kernels/quantization/turboquant/turboquant_codec.hpp:156-180 | The same for the whole row at once, codes that exceed the width coming back masked |
| BitStream.InRow | kernels/quantization/turboquant/turboquant_codec.hpp:152-154 | No code reaches past ceil(n*bits/8) bytes |
| BitMeaning.PackBits | kernels/quantization/turboquant/turboquant_codec.hpp:156-169 | Bit k of the packed row, lowest bit of the first byte first, is bit k % bits of code k / bits; bits after the last code are zero |
| BitMeaning.RowBytesIsCeil | kernels/quantization/turboquant/turboquant_codec.hpp:152-154 | The row is as long as its bits need and no longer |
| BitMeaning.OrBits | kernels/quantization/turboquant/turboquant_codec.hpp:164-167 | The or of two bytes is the or of their bits |
| Hadamard.Fwht | kernels/quantization/turboquant/turboquant_codec.hpp:184-195 | The ascending-span butterfly loops leave the Walsh-Hadamard transform in the first n cells and touch nothing else, for every power of two n |
| Hadamard.TransformIsMatrix | kernels/quantization/turboquant/turboquant_codec.hpp:182-195 | That transform is multiplication by the Sylvester-Hadamard matrix |
| Hadamard.TransformTwice | kernels/quantization/turboquant/turboquant_codec.hpp:182-183 | Applying it twice multiplies by n |
| Hadamard.TransformInner | kernels/quantization/turboquant/turboquant_codec.hpp:184-195 | It multiplies inner products, hence squared norms, by n |
| Hadamard.SpansFitIffPower | kernels/quantization/turboquant/turboquant_codec.hpp:182-195 | The loops stay inside the n cells if and only if n is zero or a power of two |
| KeyCodec.HeadSizesTheTransformTakes | kernels/quantization/turboquant/variants/xpu_sycl/turboquant.sycl.cpp:69-72 | Of the head sizes the launcher lets through, those on which the loops stay inside are exactly 0, 32, 64, 128 and 256 |
| KeyMeaning.SylvesterIsSign | kernels/quantization/turboquant/turboquant_codec.hpp:184-195 | Entry (i, j) of the transform's matrix is -1 to the number of bits that i and j share |
| KeyMeaning.RotatedIs | kernels/quantization/turboquant/turboquant_codec.hpp:210-214 | Element i of the rotated key is 1/sqrt(n) times the sum over j of that sign times key[j] * signs[j] |
| KeyMeaning.UnrotatedIs | kernels/quantization/turboquant/turboquant_codec.hpp:248-259 | Element i of a decoded row is signs[i]/sqrt(n) times the signed sum of the dequantised row |
| KeyMeaning.ScaleIsRms | kernels/quantization/turboquant/turboquant_codec.hpp:218-225 | A group's scale is the fp16 rounding of the r with 32*r*r the sum of the squares of its 32 elements, or one if that rounds to zero |
| KeyMeaning.StoreAndLoadKey | kernels/quantization/turboquant/turboquant_codec.hpp:200-260 | A key stored and loaded in closed form: rotation, nearest centroid times group scale (lowest of equally near ones), inverse rotation, all as explicit sums |
| Centroids.CountIsNearest | kernels/quantization/turboquant/turboquant_codec.hpp:227-233 | For ascending centroids the midpoint count is the index of a nearest centroid, for every z |
| Centroids.CountIsLowestNearest | kernels/quantization/turboquant/turboquant_codec.hpp:227-233 | With distinct centroids an index is the midpoint count if and only if it is nearest and all lower indices are strictly farther |
| KeyCodec.QuantisedIsNearest | kernels/quantization/turboquant/turboquant_codec.hpp:217-235 | Each rotated element is replaced by the nearest multiple centroid times group scale |
| KeyCodec.KeyErrorIsQuantisationError | kernels/quantization/turboquant/turboquant_codec.hpp:209-259 | With +-1 signs and c*c*n = 1 the squared error in key space equals the squared error in rotated space, for any quantised row |
| KeyCodec.EncodingIsOptimal | kernels/quantization/turboquant/turboquant_codec.hpp:200-259 | No other row of codes under the stored scales decodes closer to the key |
| KeyCodec.EncodeKeyRow | kernels/quantization/turboquant/turboquant_codec.hpp:200-237 | Row and scales hold the codes and group scales of the rotated key, or the e4m3 bytes at width 8; cells past the row are unchanged |
| KeyCodec.DecodeKeyRow | kernels/quantization/turboquant/turboquant_codec.hpp:240-260 | The output is the inverse rotation of what codes and scales stand for, or the decoded e4m3 bytes |
| KeyCodec.StoreAndLoad | kernels/quantization/turboquant/turboquant_codec.hpp:200-260 | A key stored and loaded is the inverse rotation of its quantised rotation, and errs by exactly the quantisation error |
| ValueCodec.RoundingError | kernels/quantization/turboquant/turboquant_codec.hpp:43-45 | Rounding is within one half, and a half is rounded away from zero |
| ValueCodec.ClampedRoundIsNearest | kernels/quantization/turboquant/turboquant_codec.hpp:294-295 | Rounding and clamping picks a nearest grid point even for values outside the grid |
| ValueCodec.ByteRoundTrip | kernels/quantization/turboquant/turboquant_codec.hpp:296-298 | Casting a grid point to its byte and back, two's complement for the signed 8-bit grid, returns it, within the packed width |
| ValueCodec.ZeroErrorIsRounding | kernels/quantization/turboquant/turboquant_codec.hpp:282-289 | In both branches the stored zero is off only by the fp16 rounding of lo/scale - offset, the offset being cmin, or 0 when the scale rounded to zero |
| ValueCodec.ValueErrorBound | kernels/quantization/turboquant/turboquant_codec.hpp:269-301 | A value between lo and hi is restored within scale * max(1/2, delta - (offset - cmin), (hi - lo)/scale - (cmax - offset) - delta), through both clamp branches and for both grids |
| ValueCodec.WithinHalfIff | kernels/quantization/turboquant/turboquant_codec.hpp:293-295 | A value is restored within half a scale if and only if it overshoots the grid by no more than one half |
| ValueCodec.GridPointIsBest | kernels/quantization/turboquant/turboquant_codec.hpp:293-298 | No other grid point restores the value more closely |
| ValueMeaning.StoredAffine | kernels/quantization/turboquant/turboquant_codec.hpp:269-287 | The stored scale is the fp16 rounding of the span over the grid's 2^bits - 1 steps, one if that is zero; the zero is the rounding of lo in steps less the lowest grid point, or of lo itself |
| ValueMeaning.EndsAreExact | kernels/quantization/turboquant/turboquant_codec.hpp:269-321 | Without rounding of the parameters the least value is stored as the lowest grid point and the greatest as the highest, and both come back exactly |
| ValueMeaning.WithinHalfAStep | kernels/quantization/turboquant/turboquant_codec.hpp:269-321 | Without rounding every element comes back within half of span / (2^bits - 1), constant groups exactly |
| ValueMeaning.RoundedUpScale | kernels/quantization/turboquant/turboquant_codec.hpp:293-301 | When the stored scale is not below the exact step, every element comes back within the scale times the larger of one half and the zero's error |
| ValueMeaning.BytesAreTwosComplement | kernels/quantization/turboquant/turboquant_codec.hpp:296-298 | Grid points are packed as themselves, negative ones of the signed grid as 256 more |
| ValueCodec.EncodeValueRow | kernels/quantization/turboquant/turboquant_codec.hpp:265-303 | Row, scales and zeros hold the group's affine parameters and grid points; cells past the row are unchanged |
| ValueCodec.DecodeValueRow | kernels/quantization/turboquant/turboquant_codec.hpp:306-323 | Every element is (code + zero) * scale of its group |
| ValueCodec.StoreAndLoad | kernels/quantization/turboquant/turboquant_codec.hpp:265-323 | Stored and loaded, every element comes back as its grid point, within the error bound |
| DeltaRule.StepInPlace | kernels/linear_attention/gated_delta_rule/variants/xpu_sycl/gated_delta_rule.sycl.cpp:125-137 | The two loops on the state row are decay, prediction at the key, rank-one correction and read-out at the query |
| DeltaRule.ReadAfterStep | kernels/linear_attention/gated_delta_rule/variants/xpu_sycl/gated_delta_rule.sycl.cpp:125-137 | Reading the new state with any vector gives the decayed reading plus the correction times that vector's overlap with the key |
| DeltaRule.RecallAfterStep | kernels/linear_attention/gated_delta_rule/variants/xpu_sycl/gated_delta_rule.sycl.cpp:125-137 | With a unit key the value recalled at the key moves from the decayed recall towards v by the fraction beta, exactly to v when beta is one |
| DeltaRule.RunConcat | kernels/linear_attention/gated_delta_rule/variants/xpu_sycl/gated_delta_rule.sycl.cpp:113-143 | Running two token sequences one after the other is running them joined, states and outputs |
| DeltaRule.NormaliseInPlace | kernels/linear_attention/gated_delta_rule/variants/xpu_sycl/gated_delta_rule.sycl.cpp:45-61 | The normalisation pass divides one head vector by its guarded norm in place and touches nothing else |
| GatedDelta.LaneKernel | kernels/linear_attention/gated_delta_rule/variants/xpu_sycl/gated_delta_rule.sycl.cpp:87-148 | A work-item leaves in its slot row the run of its tokens from the row or from zeros, emits the outputs (zeros without a slot), and touches no other cell |
| GatedDelta.Launch | kernels/linear_attention/gated_delta_rule/variants/xpu_sycl/gated_delta_rule.sycl.cpp:76-148 | With the work-items in any order every lane's slot row and outputs are those of the specification on the state before the launch, and cells of no lane are unchanged |
| GatedDelta.UnnamedSlotSpared | kernels/linear_attention/gated_delta_rule/variants/xpu_sycl/gated_delta_rule.sycl.cpp:144-147 | Slots that no sequence with tokens names keep every cell |
| GatedDelta.WorkItemsAreLanes | kernels/linear_attention/gated_delta_rule/variants/xpu_sycl/gated_delta_rule.sycl.cpp:79-83 | Work-groups and local ids correspond one to one to (sequence, head, dimension) |
| GatedDelta.StateRowUnique | kernels/linear_attention/gated_delta_rule/variants/xpu_sycl/gated_delta_rule.sycl.cpp:91-97 | Different (slot, head, dimension) triples have different state rows |
| GateLaws.DecayRange | kernels/linear_attention/gated_delta_rule/variants/xpu_sycl/gated_delta_rule.sycl.cpp:104-117 | The decay lies strictly between zero and one |
| GateLaws.DecayDecreases | kernels/linear_attention/gated_delta_rule/variants/xpu_sycl/gated_delta_rule.sycl.cpp:34-37 | Of two gate inputs the larger decays more, if and only if they lie on the same side of 20 or the larger clears the step between the soft plus's branches |
| GateLaws.DecayPlateau | kernels/linear_attention/gated_delta_rule/variants/xpu_sycl/gated_delta_rule.sycl.cpp:34-37 | An input above 20 that decays exactly as 20 does |
| GateLaws.DecayFallsWithALog | kernels/linear_attention/gated_delta_rule/variants/xpu_sycl/gated_delta_rule.sycl.cpp:104-117 | A larger A_log decays more |
| GateLaws.DecayAtZero | kernels/linear_attention/gated_delta_rule/variants/xpu_sycl/gated_delta_rule.sycl.cpp:104-117 | At A_log = 0 the decay is 1/(1 + exp(x)) up to 20 and exp(-x) beyond |
| GateLaws.DecayRatesAdd | kernels/linear_attention/gated_delta_rule/variants/xpu_sycl/gated_delta_rule.sycl.cpp:104-117 | When exp(c) = exp(a) + exp(b) the decay under c is the product of those under a and b |
| GateLaws.SigmoidLaws | kernels/linear_attention/gated_delta_rule/variants/xpu_sycl/gated_delta_rule.sycl.cpp:34-34 | The write strength is one half at zero, increasing, between zero and one, and sums to one with that of the negated input |
| DeltaMeaning.DeltaBatch | kernels/linear_attention/gated_delta_rule/variants/xpu_sycl/gated_delta_rule.sycl.cpp:76-148 | In terms of the buffers: every lane has a sequence of state rows from the one read (slot row or zeros) to the one stored in which each row follows by the token's query, key, value, strength and gate at their flat addresses, and each output cell is the new row's product with the query |
| DeltaMeaning.StepInInputs | kernels/linear_attention/gated_delta_rule/variants/xpu_sycl/gated_delta_rule.sycl.cpp:119-135 | One step: state g*s[i] + k[i]*((v - sum of g*s*k)*beta), with every operand at its address in the inputs |
| DeltaPieces.PieceCarriesOn | kernels/linear_attention/gated_delta_rule/variants/xpu_sycl/gated_delta_rule.sycl.cpp:99-148 | A call that starts from the row its predecessors left carries the whole sequence's run on, states and outputs |
| DeltaPieces.RunPieces | kernels/linear_attention/gated_delta_rule/variants/xpu_sycl/gated_delta_rule.sycl.cpp:76-148 | A batch called in pieces, in any launch orders, leaves the state, emits the outputs and spares the cells that one call on the whole batch does |
| DeltaPieces.OneSequenceCuts | kernels/linear_attention/gated_delta_rule/variants/xpu_sycl/gated_delta_rule.sycl.cpp:87-148 | Cutting one sequence at any points, down to one call per token, gives such pieces |
| BatchCuts.EveryGridCuts | kernels/linear_attention/gated_delta_rule/variants/xpu_sycl/gated_delta_rule.sycl.cpp:87-148 | Cutting every sequence of a batch at points of its own and repacking the parts gives pieces that present the whole batch, parts without tokens included |
| BatchCuts.SameTokenOf | kernels/linear_attention/gated_delta_rule/variants/xpu_sycl/gated_delta_rule.sycl.cpp:115-127 | Token t of a part in the repacked inputs is the token it was in the whole batch, for query, key, value, gate and write strength |
| QwenStep.FusedLane | kernels/linear_attention/qwen_gdn_decode/variants/xpu_sycl/qwen_gdn.sycl.cpp:98-147 | The fused decode step leaves in the slot row what one token of the general kernel leaves, and emits its output times the fixed query scale; zero without a slot |
| QwenMeaning.FusedBatch | kernels/linear_attention/qwen_gdn_decode/variants/xpu_sycl/qwen_gdn.sycl.cpp:87-147 | In terms of the buffers: columns 0-2047, 2048-4095 and 4096-8191 of a row are queries, keys and values of 128, the state row takes one gated step, and the output is the new row's product with the normalised query times the fixed scale; zero without a slot |
| QwenMeaning.QueryScaleIsRoot | kernels/linear_attention/qwen_gdn_decode/variants/xpu_sycl/qwen_gdn.sycl.cpp:121-121 | The fixed query scale is 1/sqrt(128) to 15 digits |
| QwenStep.SameToken | kernels/linear_attention/qwen_gdn_decode/variants/xpu_sycl/qwen_gdn.sycl.cpp:104-135 | The fused kernel's normalised query and key, gate and write strength are those of the general kernel on normalised inputs |
| Vectors.DotScaleRight | kernels/linear_attention/qwen_gdn_decode/variants/xpu_sycl/qwen_gdn.sycl.cpp:125-146 | Scaling the query scales the read-out |
| QwenStep.FusedLaunch | kernels/linear_attention/qwen_gdn_decode/variants/xpu_sycl/qwen_gdn.sycl.cpp:87-147 | With the work-items in any order every slot row ends as the general kernel leaves it, every output is the general kernel's times the query scale, and cells of no lane are unchanged |
| QwenStep.BatchOfIsSameStep | kernels/linear_attention/qwen_gdn_decode/variants/xpu_sycl/qwen_gdn.sycl.cpp:104-123 | For every fused input there is a general-kernel batch of one token a sequence that holds the same step |

## Left out

- SYCL queues, events, unified memory, Level Zero IPC, oneDNN variants and dtype dispatch: foreign calls without logic of their own.
- The weak memory model behind publish_flag and observe_flag, the spin cap, peer-access probing and the uint32 wrap of generations.
- Floating-point rounding, NaN and infinite scores in attention, GEMM and the recurrence: exact reals; the casts between storage types are identities there.
- f32_to_f16_bits, the e4m3, e5m2 and e2m1 decoders and the packed weight formats of the grouped GEMM: parameters (decoded weights, an abstract rounding, encode and decode functions).
- joint_matrix, sub-group shuffles and shared local memory: a tile multiply is an inner product, a sub-group reduction a sum over lanes, the staged q/k of the recurrence are read directly.
- Interleaving inside the attention, GEMM, unpermute, cache and recurrence launches: their work-items share no cell that one of them writes, so each runs as one unit, in any order; atomics of the expert count and scatter are interleaved instruction by instruction.
- The order of the lanes within the group that accumulates one element in the all-reduce kernel methods: StageAll runs its work-items in order, the protocol interleaves every store.
- int32 row counters and cursors of the permutation, which stay far below their range, are unbounded.
- Flat row addresses of permuted, C and out in the expert pipeline and of the attention outputs: two-dimensional arrays; the cache, state and output addresses of the paged cache and the recurrence are flat.
- KeyCodec.EncodeKeyRow: the square root and the fp16 rounding of the group scale are parameters, so how close the scale is to the true root mean square is not stated.
- ValueCodec.StoreAndLoad: the bound needs an fp16 rounding that keeps the sign of values that are not negative, and does not bound the rounding itself.
- The slot loop of the turboquant launcher (negative slots skipped or read as zero): the same pattern as the paged cache.
- Softplus and the exponential of the recurrence: the launch theorems use only that the exponential is positive, the laws of the gates those of a real exponential and logarithm.
- Elementwise kernels, the causal convolution of the Qwen step, CommandGraph, variant resolution, benchmarks and the Lloyd-Max solver: easy members or plumbing.
