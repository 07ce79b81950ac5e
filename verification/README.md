# Verified model of a KV-cache scheduler, its dual-batch runners and two index kernels

This project models the serving core of the repository in Dafny and proves what that core is for.

- **The paged KV cache.** `RadixCache.dfy` is the mutable prefix tree: nodes that are split, locked, grown and evicted in
  place. It is proved against a finite map from page-aligned token prefixes to slots (`PrefixStore.dfy`).
  `CacheManager.dfy` hands pages out, writes page-table rows and takes pages back.
- **The scheduler.** `Table.dfy`, `Core.dfy`, `Decode.dfy`, `Prefill.dfy`, `Batching.dfy`, `Attention.dfy`, `Engine.dfy` and
  `Scheduler.dfy` are the state machine around the cache: admission with a reservation, chunked prefill, decode, the
  plain and the overlapped loop, abort and finish. Requests, slots, rows and the tree are objects that change in place.
  `World.dfy`, `Pages.dfy` and `Residency.dfy` state who holds which page; `Progress.dfy` and `Tickets.dfy` are the
  measure and the books behind "everything accepted finishes". `Sharing.dfy` and `Overcommit.dfy` hold the two findings
  below.
- **The dual-batch pipelines.** `DualBatch.dfy` defines the serial passes; `DeepseekRunner.dfy` and `GlmRunner.dfy` are
  the interleaved ones, with one expert job in flight and one staging buffer that is reused.
- **Two kernels made of indices.** `Quantising.dfy`, `Nibbles.dfy`, `MarlinLayout.dfy`, `Marlin.dfy` and
  `MarlinPacking.dfy` are the 4-bit packing; `GroupedTiles.dfy` is the order in which the fused expert kernel takes tiles.

`dafny verify dfyconfig.toml` checks the whole project.

## How to read it

`Scheduler.AtRest(last)` is the invariant of every run. It holds after construction, and every message, abort, turn of
the plain loop and turn of the overlapped loop keeps it; `last` is the batch that has been run and not yet processed.
The lemmas named `...AtRest` say what it means: where each page is, what each slot was last written for, what each row
looks like, what the reference counts count, and what is still needed. The ghost field `kv` of the scheduler maps every
slot to the token prefix whose keys and values were last written to it, so that claims about cached contents are claims
about labels.

`EstimateCovers(ps)`, which is `ps <= 2`, is the condition under which allocation can never fail; see "Findings".

## Assumptions

- A prompt is not empty and asks for at least one token (`Proper`). A prompt that leaves no room for output is dropped and
  an over-long request is cut, as the code does.
- Aborts come only while no batch is in flight, that is, only in the plain loop.
- The page size divides the width of the page table. The prefill budget and the number of slots are at least one, and
  the longest sequence fits both the width of the table and all pages together (`Wires`).
- Device work happens in program order. Sampled tokens, clocks and the tensors are arbitrary.
- In the dual-batch pipelines the two batches have separate rows and write separate slots, there is at least one layer,
  and, for the DeepSeek runner, adding two tensors is commutative.

## Model

| member | source | states |
|---|---|---|
| RadixCache.RadixPrefixCache.MatchPrefix | python/minisgl/kvcache/radix_cache.py:132-134 | Returns the longest stored page-aligned prefix of the input, as a node of the tree; the stored map is the same afterwards, even when the walk has split a node. Exactly the nodes on the way to it are stamped with the time of the match. |
| RadixCache.RadixPrefixCache.TreeWalk | python/minisgl/kvcache/radix_cache.py:205-231 | The walk stops exactly at the longest stored page-aligned prefix, whether it runs out of children, of agreement within a run, or of input. Every node below the root whose prefix is matched gets the new time, the part cut off in front included; every other node keeps its own. |
| RadixCache.RadixPrefixCache.SplitNode | python/minisgl/kvcache/radix_cache.py:69-81 | Cutting a node at a page boundary adds one node and changes neither the map nor any count. |
| RadixCache.RadixPrefixCache.InsertPrefix | python/minisgl/kvcache/radix_cache.py:136-146 | Stores exactly the missing pages of the page-aligned input; prefixes already stored keep their slots; the returned length is that of the longest prefix that was stored. The path already stored is stamped, a new leaf carries its own time, all other nodes keep theirs. |
| RadixCache.RadixPrefixCache.LockHandle | python/minisgl/kvcache/radix_cache.py:113-130 | Adds or removes one lock; each reference count stays the number of locks at or below its node, and the two size counters stay the sizes of the unlocked and the locked pages. |
| RadixCache.RadixPrefixCache.GetMatchedIndices | python/minisgl/kvcache/radix_cache.py:91-98 | Walking up from the handle's node gives the slots that the map has for its whole prefix. |
| RadixCache.RadixPrefixCache.LockedMatchStays | python/minisgl/kvcache/radix_cache.py:91-130 | Across any operation of the tree, a node that some lock holds stays, and every page of its prefix keeps its slots. |
| RadixCache.RadixPrefixCache.Evict | python/minisgl/kvcache/radix_cache.py:148-175 | Ends with at least the wanted size freed; removes unlocked prefixes only, returns exactly their slots, takes a least recently used unlocked leaf each time, stops with the first node that reaches the size, and touches no time stamp. |
| RadixCache.RadixPrefixCache.CollectLeaves | python/minisgl/kvcache/radix_cache.py:190-203 | The traversal collects exactly the unlocked leaves. |
| RadixCache.CompareKey | python/minisgl/kernel/csrc/src/radix.cpp:19-40 | The length of the longest common prefix of two runs. |
| CacheManagement.CacheManager.MatchReq | python/minisgl/scheduler/cache.py:27-31 | Never matches the last token of a prompt, matches as much as is stored of the rest, and stamps exactly that path. |
| CacheManagement.CacheManager.Allocate | python/minisgl/scheduler/cache.py:106-113 | Fails exactly when fewer pages are free or can be evicted than are wanted, changing nothing then; otherwise hands out that many pages, free ones first. Nothing is evicted while enough pages are free; else only unlocked prefixes go, least recently used first, and without its last victim the eviction would have fallen short. |
| CacheManagement.CacheManager.AllocatePaged | python/minisgl/scheduler/cache.py:42-53 | Every request of the batch gets the pages up to its length, at its own row, in order; no other row changes; fails exactly when the sum of the missing pages cannot be had; evicts nothing when that many pages are free, and otherwise no node more than is needed. |
| CacheManagement.WritePageTable | python/minisgl/scheduler/cache.py:127-146 | One indexed assignment over host-built index buffers puts each request's slots into one stretch of its own row. |
| CacheManagement.CacheManager.CacheReq | python/minisgl/scheduler/cache.py:55-79 | Stores what has been computed, frees the pages that were stored already, drops the old lock; at the end frees the rest, before it locks the stored prefix. Every whole page computed is stored afterwards, and nothing stored before has moved. |
| CacheManagement.CacheManager.LeaveLazyFree | python/minisgl/scheduler/cache.py:93-104 | Pages freed within a lazy region all become free, in the order they were freed. |
| CacheManagement.CacheManager.CheckIntegrity | python/minisgl/scheduler/cache.py:81-92 | Succeeds exactly when free and stored pages together are as many as there are pages and every free page is aligned. |
| World.PagesPartitioned | python/minisgl/scheduler/cache.py:42-117 | Free pages, the tree's pages and each request's own pages are pairwise disjoint, none occurs twice, and together they are all pages. |
| Scheduling.Scheduler.PagesAtRest | python/minisgl/scheduler/cache.py:42-117 | This holds between any two steps of any run, at any page size. |
| Scheduling.Scheduler.LabelsAtRest | python/minisgl/scheduler/scheduler.py:239-268 | Every slot that is stored or owned by a live request was last written for exactly the token prefix it stands for. |
| Scheduling.Scheduler.RowAtRest | python/minisgl/scheduler/prefill.py:56-61 | As long as a request names the tree's own slots for its locked prefix, its whole computed row was last written for its own tokens. |
| Scheduling.Scheduler.BlocksAtRest | python/minisgl/scheduler/cache.py:42-53 | Every mapped page of a row is one aligned block of consecutive slots. |
| Scheduling.Scheduler.LocksAtRest | python/minisgl/kvcache/radix_cache.py:113-130 | A node's reference count is the number of live requests whose locked prefix goes through it. |
| Scheduling.Scheduler.NeedsAtRest | python/minisgl/scheduler/prefill.py:39-63 | Where the estimate covers the pages, all that live requests may still need is free or can be evicted. |
| Scheduling.Scheduler.RunWhenIdle | python/minisgl/scheduler/scheduler.py:87-90 | The integrity check passes whenever nothing is live. |
| TableManagement.TableManager.Allocate | python/minisgl/scheduler/table.py:17-18 | Takes the slot off the end of the free list. |
| Decoding.DecodeManager.FilterReqs | python/minisgl/scheduler/decode.py:14-15 | Who runs next: everybody who ran or was in the batch and can still be decoded. |
| Decoding.DecodeManager.ScheduleNextBatch | python/minisgl/scheduler/decode.py:32-36 | All running requests, once each, by number. |
| Decoding.DecodeManager.InflightJoins | python/minisgl/scheduler/decode.py:27-30 | The reservation for running requests is additive: for one it is what it may still sample and all but one slot of a page, and disjoint groups add up. |
| Residency.InflightCovers | python/minisgl/scheduler/decode.py:27-30 | At any page size, the tokens reported as in flight hold the pages that all requests but the chunk may still need. |
| Prefill.PrefillAdder.TryAllocateOne | python/minisgl/scheduler/prefill.py:39-63 | Admits exactly when a slot is free and, with the longest stored prefix locked, estimate and reservations fit; then row and pool hold that prefix's slots and tokens, otherwise nothing but the shape of the tree has changed. |
| Prefill.NewcomerNeed | python/minisgl/scheduler/prefill.py:43-54 | Where the estimate covers the pages, it is at least what a new prompt will take. |
| Prefill.ChunkNeed | python/minisgl/scheduler/prefill.py:92-113 | And so is the estimate with which a prompt that is under way is continued. |
| Prefill.PrefillManager.ScheduleNextBatch | python/minisgl/scheduler/prefill.py:126-151 | The batch takes the first prompts that wait, in order and within the budget; each part starts where the last one ended, or behind the longest stored prefix; only the last can be a chunk, which then heads the list; it stops only when the list or the budget ends or the next prompt is turned away. |
| Prefill.PrefillManager.AbortReq | python/minisgl/scheduler/prefill.py:153-159 | Removes the first prompt with the given number, and hands over what has been admitted of it. |
| Prefill.HeadAdmitted | python/minisgl/scheduler/prefill.py:39-63 | With nothing live, a prompt that fits the pages at all is not turned away, at any page size. |
| Batching.MakePositions | python/minisgl/scheduler/scheduler.py:271-284 | The positions of a batch, filled in through an offset, are those of its spans, one behind the other. |
| Batching.MakeInputTuple | python/minisgl/scheduler/scheduler.py:287-294 | Each position is paired with the row of its own request. |
| Batching.MakeWriteTuple | python/minisgl/scheduler/scheduler.py:297-302 | A sampled token goes behind its row's last token, that of a chunk to the last column. |
| Batching.StoredIsComputed | python/minisgl/scheduler/scheduler.py:239-252 | Writing the gathered slots of a whole batch is the same as computing its requests one after the other. |
| Attention.PrepareMetadata | python/minisgl/attention/fa.py:68-106 | In all three branches the query offsets are the prefix sums of what each request extends by; key offsets and lengths are those of the batch; the two maxima are the longest extension and the longest length of the batch; each table holds every page-th entry of its row. |
| Attention.CompressedSlot | python/minisgl/attention/fa.py:96-103 | For a row whose pages are aligned blocks, the compressed table gives back the slot of every position. |
| Attention.LastIsLast | python/minisgl/attention/fa.py:33-34 | The logits taken for a request are those of its last position, in its own row. |
| Scheduling.Scheduler.CompressedNamesSlots | python/minisgl/attention/fa.py:96-103 | For a prepared batch this names the slot of every position below a request's length. |
| Scheduling.Scheduler.PrepareBatch | python/minisgl/scheduler/scheduler.py:239-252 | Succeeds exactly when the pages the batch needs can be had, and evicts nothing when they are free; then every request has pages for all it will compute, the index lists are those of its spans, and the attention tables name the slot of every position. |
| Scheduling.Scheduler.PickBatch | python/minisgl/scheduler/scheduler.py:254-260 | Prompts come first: when a batch of running requests is chosen, or none, then nobody waits or the prompt at the head could not be taken, for want of a slot or of room for its estimate. A batch of prompts is as long as budget, slots and room allow. |
| Scheduling.Scheduler.LastColumnUnread | python/minisgl/scheduler/scheduler.py:297-302 | The column where the tokens of chunks go is never read. |
| Execution.ForwardBatch | python/minisgl/engine/engine.py:206-225 | A forward pass writes, for every position of the batch, the slot of its own row, and advances every request by one token. |
| Scheduling.Scheduler.Forward | python/minisgl/scheduler/scheduler.py:262-268 | The tokens gathered for a batch are its requests' prompt or previously sampled tokens; rows that share are right before and after; the sampled tokens land behind them, and whoever can go on runs. |
| Scheduling.Scheduler.ProcessEntry | python/minisgl/scheduler/scheduler.py:155-196 | One reply per entry that is no chunk: the request's number, the next token, and whether it is the last; a request leaves the first time it is done, with its slot, and is released once although it may be in the next batch already; a prompt that goes on is stored and locked by its new handle. |
| Scheduling.Scheduler.ProcessEntries | python/minisgl/scheduler/scheduler.py:160-196 | In batch order, every entry that is no chunk gives exactly one reply and lengthens its own request's log by that reply; slots go back in the order of release; whoever was released, and every prompt of a prefill batch, has all its whole pages in the tree. |
| Scheduling.Scheduler.ProcessLastData | python/minisgl/scheduler/scheduler.py:155-199 | The same of the whole call: what it sends is one answer per entry that is no chunk, with the flag that says whether the request can go on, and the requests finished now are those to skip in the batch in flight. |
| Scheduling.Scheduler.FreeReqResources | python/minisgl/scheduler/scheduler.py:235-237 | The slot goes to the end of the free list, every whole page computed is in the tree, the other pages are free, and the request is entered in the log of those released. |
| Scheduling.Scheduler.ProcessOneMsg | python/minisgl/scheduler/scheduler.py:201-233 | Every message keeps the invariant. Prompts, nested to any depth, are appended in their order, one that leaves no room is dropped and an over-long request cut, and nothing else changes; an abort takes out whom `Abort` names. |
| Scheduling.Scheduler.Abort | python/minisgl/scheduler/scheduler.py:226-231 | The first waiting prompt with the number goes, and with it the part of it that is already computed; if there is no such part, a running request with the number goes, unless there is none; its slot and pages are released once. |
| Scheduling.Scheduler.NormalStep | python/minisgl/scheduler/scheduler.py:122-132 | A turn that has anything to do runs a batch and leaves strictly less to do. Running requests are decoded only when the first waiting prompt could not be taken; then each of them advances by one token, and otherwise none does. It sends one answer per entry that is no chunk, in batch order, and each log grows by just that; no accepted request gets lost; whoever leaves has sent one reply per token, final only on the last. |
| Progress.PrefillProgress | python/minisgl/scheduler/scheduler.py:254-260 | A batch of prompts lowers pending prompt tokens, pending outputs and running remainders together. |
| Progress.DecodeProgress | python/minisgl/scheduler/scheduler.py:254-260 | So does a round of decoding. |
| Tickets.BatchKeepsTickets | python/minisgl/scheduler/prefill.py:126-151 | What waits and what is live is, request by request, the same before and after a batch of prompts is formed. |
| Scheduling.Scheduler.RunUntilIdle | python/minisgl/scheduler/scheduler.py:122-132 | Without arrivals, the plain loop comes to rest with nothing live, waiting or running, and has released every accepted request exactly once. The replies it has sent to each of them, in order, are what that request's log has grown by: one per token, final only on the last; nobody else is sent anything. |
| Scheduling.Scheduler.OverlapLoop | python/minisgl/scheduler/scheduler.py:92-120 | The overlapped loop keeps the invariant. Everybody asked for, live or released before is accounted for afterwards. A batch is in flight unless nobody runs or waits; it is one of running requests only if the first who waits could not be taken. The batch in flight before is answered entry by entry; only its requests are released, each once ever, and no released request is in the batch in flight. |
| Sharing.KeptShares | python/minisgl/scheduler/cache.py:67-79 | Caching a prompt that goes on leaves its row naming the tree's slots if and only if nothing beyond its old lock was stored already. |
| Sharing.KeptMapsFreed | python/minisgl/scheduler/cache.py:67-79 | Otherwise, and only then, its row goes on naming slots of pages that are free. |
| Scheduling.Scheduler.CacheUnfinished | python/minisgl/scheduler/scheduler.py:195-196 | The same of the running scheduler: a request goes on sharing if and only if no slot its row maps below its new lock is free. |
| Sharing.TwinsInOrder | python/minisgl/scheduler/cache.py:67-79 | Two requests with one prompt, the first of them cached, are a state that meets the whole invariant. |
| Sharing.SamePromptTwice | python/minisgl/scheduler/cache.py:67-79 | Caching the second of them frees the page that its row goes on naming. |
| Overcommit.EstimateCoversExactly | python/minisgl/scheduler/prefill.py:43-54 | The estimate is at least the pages a new request takes, for every request, if and only if the page size is at most two. |
| Overcommit.FailingRun | python/minisgl/scheduler/prefill.py:46-54 | At any page size from three on, a newly built scheduler with enough slots and budget fails on its first batch. |
| DualBatch.SerialTwice | python/minisgl/models/deepseek_v2.py:156-166 | Two serial passes over batches with separate rows give the same outputs and the same stored cells in either order. |
| DualBatch.ForwardBoth | GLMDualBatchRunner.py:82-112 | Running the serial pass twice gives these outputs and cells. |
| DeepseekRunner.DeepseekV2DualBatchRunner.Forward | DeepseekV2DualBatchRunner.py:95-142 | The interleaved run returns the two serial outputs and leaves the cells of two serial passes, for every number of layers and every dense or expert pattern; all temporaries are empty and the attention backend is restored. |
| GlmRunner.Glm4MoeDualBatch.Forward | GLMDualBatchRunner.py:114-156 | The same for the GLM runner, which adds the shared experts at once. |
| DualBatch.CpuExperts.SyncForward | DeepseekV2DualBatchRunner.py:163-182 | Collecting needs a matching job in flight, returns its result in the staging buffer, and leaves no job behind. |
| DualBatch.ScheduleComplete | DeepseekV2DualBatchRunner.py:113-135 | In the order of slots, each batch gets attention and then experts of each layer, once and in layer order. |
| DualBatch.ScheduleInterleaves | DeepseekV2DualBatchRunner.py:113-135 | The batches take turns: what one submits in a slot is collected in the slot after the other's next attention, so that one job at most is in flight. |
| DualBatch.AttentionSees | python/minisgl/models/deepseek_v2.py:156-166 | Attention reads the store with the entries of its own batch in it: a slot written now is read as written now. |
| Quantising.CodeIsNearest | python/minisgl/layers/marlin.py:74-78 | The chosen code is within half a scale of the weight and no other code is nearer, the clamp at fifteen included. |
| Quantising.ScaleFits | python/minisgl/layers/marlin.py:74-76 | The largest magnitude of a group is seven and a half times its scale; a group of zeros has scale one. |
| Quantising.RoundHalfEven | python/minisgl/layers/marlin.py:78 | Rounding moves a number by at most one half, and from the middle between two integers to the even one. |
| Quantising.HalfScaleIsReached | python/minisgl/layers/marlin.py:74-78 | The bound is tight: the largest positive weight of a group is off by exactly half the scale. |
| Quantising.ZeroGroupIsExact | python/minisgl/layers/marlin.py:75-78 | A group of zeros comes back exactly. |
| Nibbles.JoinedBack | python/minisgl/layers/marlin.py:83-84 | Or-ing the eight shifted nibbles of a word gives the word. |
| Nibbles.NibblesInBits | python/minisgl/layers/marlin.py:83-84 | The k-th nibble of a word is what stands at its bits 4k to 4k + 3. |
| Marlin.CodeComesBack | python/minisgl/layers/marlin.py:79-84 | For every padded shape, unpacking finds each code at its own row and column. |
| Marlin.WordComesBack | python/minisgl/layers/marlin.py:79-84 | Packing what has been unpacked gives every packed word back, so that packing is a bijection. |
| Marlin.BlockWords | python/minisgl/layers/marlin.py:69-87 | Packing a block of columns gives the words that packing the whole matrix gives at those columns. |
| MarlinLayout.Permutations | python/minisgl/layers/marlin.py:44-53 | The loops build, number by number, the two permutations of the kernel. With t the n-th of 0, 2, 4, 6, 1, 3, 5, 7, entry 32i + 8j + n of the first is 256j + 16 times row t mod 4 of 2(i mod 4), the row behind it and the two rows eight further on, plus i / 4 + 8 (t / 4). Entry 8i + j of the second is i + 8j. |
| MarlinPacking.PackMarlin | python/minisgl/layers/marlin.py:56-87 | The blocked loop fills the packed words and scales of the whole padded matrix. In numbers, nibble n of word 128b + 4i + j of row a of words holds the code of the weight at the row and column that the row tuple, the block and b give; scale 64b + 8i + j of a group is that of column 64b + i + 8j. Every weight restored from them is within half a scale of the original. |
| GroupedTiles.ProgramHasOneTile | python/minisgl/kernel/triton/fused_moe.py:116-124 | Each program takes a tile inside the grid and can be found again from it. |
| GroupedTiles.TilesInTurn | python/minisgl/kernel/triton/fused_moe.py:116-124 | Within a group, consecutive programs go down the rows of one column of tiles and then to the next column. |
| GroupedTiles.TileHasOneProgram | python/minisgl/kernel/triton/fused_moe.py:116-124 | Each tile of the grid has a program, a short last group included. |
| GroupedTiles.EachElementComputedOnce | python/minisgl/kernel/moe_impl.py:28-31 | So every element of the output is in the tile of exactly one launched program. |
| GroupedTiles.GroupsAreConsecutive | python/minisgl/kernel/triton/fused_moe.py:116-124 | Later programs never go back to an earlier group of rows. |

## Findings

1. **A request can go on naming freed pages.** `cache_req` with `finished=False` frees the pages between the old lock and
   what `insert_prefix` found stored (python/minisgl/scheduler/cache.py:67-79), but does not rewrite the request's row. The
   exact condition is that `insert_prefix` returns more than the length of the old handle (`Sharing.KeptShares`,
   `Sharing.KeptMapsFreed`); a caller can see it before anything is freed. `Scheduler.CacheUnfinished` states it for the
   running scheduler, in terms of free slots in the row. `Sharing.SamePromptTwice` is the smallest input: two identical
   prompts of one page in one batch. For all requests this never happened to, the field `shares` is true and the whole
   computed row is right at every forward pass (`Scheduler.RowAtRest`, `Scheduler.Forward`).
2. **The reservation does not round up to pages.** The admission test counts tokens
   (python/minisgl/scheduler/prefill.py:46-54), while pages are taken whole. For page sizes one and two this never hurts: in
   every run of either loop allocation succeeds (`ok` in `NormalStep`, `OverlapLoop`, `RunUntilIdle`). From three tokens a
   page on it does: `Overcommit.FailingRun` builds a scheduler, hands it one more one-token prompt than there are pages,
   sees all of them admitted, and its first batch runs into the assertion of `evict`
   (python/minisgl/scheduler/cache.py:106-109, python/minisgl/kvcache/radix_cache.py:151-153). Page sizes 16, 32 and 64 are
   settings the engine makes (python/minisgl/engine/engine.py:277-278). `AllocatePaged` and `PrepareBatch` give the exact
   condition for each batch, and everything else that is proved of a run holds as long as it is met.

## Left out

- CUDA streams, events, graph capture and batch padding: device work is in program order and no batch is padded.
- Tensors and numerics: norms, attention, experts and sampling are uninterpreted; the keys and values in a slot are
  represented by the prefix they were last written for. BF16 rounding, the Marlin GEMM and the attention kernels are not
  part of this model; the quantisation bound is over exact reals.
- The page table and the token pool are arrays of rows that are replaced as a whole, not two-dimensional tensors.
- `heapq` and the dictionary of children: the heap is a set from which a least recently used node is taken, and the
  depth-first traversal keeps its stack as a set.
- The dictionary of running requests is a set; a prompt that waits is a value, with a reference to the request it is
  continued from.
- `get_matched_indices` of the root handle, which the code never uses on an empty match.
- Clocks come from outside and may show any time: of two equal time stamps, either node may be evicted first. No claim is
  made that a parent is newer than its children.
- Abort while a batch is in flight, `ExitMsg`, request timings, logging, message transport and the tokenizer.
- Request numbers need not be unique: an abort takes the first that matches.
- Scheduling.Scheduler.OverlapLoop: does not say that the last reply to a request is its only final one, because a
  finished request may be computed once more in the batch that was in flight, and is answered for it.
- Scheduling.Scheduler.LabelsAtRest: says nothing about the part of a row below the locked prefix, because finding 1 makes
  that false for requests that no longer share; `RowAtRest` covers the others.
- KTransformers internals: the CPU experts are a submit and a collect over one staging buffer.
- GGUF loading, configuration, the HTTP server, benchmarks and the other attention backends.
