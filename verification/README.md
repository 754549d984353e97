# Build-ahead decoding: a model of the two-deep pipeline

`projects/ksanallm-build-ahead` decodes with two steps in flight. The Engine launches step `k + 1` before
the token of step `k` exists and leaves `-1` placeholders in `forwarding_tokens`; the Executor overwrites
them just before the step runs, from a ring that the previous step filled; when a result returns, the Engine
fills its own placeholders, trims rejected drafts and shifts what lies behind. Both sides work from separate
state. The design promises the tokens of the depth-1 path, one for one
(`projects/ksanallm-build-ahead/build-ahead-mtp-serial.md:11`). This project models both sides and the
depth-1 path, proves that promise over all interleavings, and names exactly the inputs on which the code
breaks it.

## Modules

* `Tokens`, `Arithmetic`: slot operations on token sequences; products.
* `Reference`: what depth 1 computes, as a recursion over steps: the independent definition everything is
  measured against.
* `InferRequests`: the Engine's request as a class whose methods change its fields in place, each proved equal
  to a function on its state; `RequestSteps` proves what every launch and retire keeps, `DepthOne` and
  `AheadEngine` what they keep at depth 1 and 2.
* `HostRings`, `ModelRunners`: the Executor's flat ring, its maps, and the in-place CPU repair.
* `EngineRun`: the Engine alone, as a transition system over plans, launches and retires. `AheadRun`: Engine,
  Executor, the two channels between them and every other request, as another. `Relaunch` is the Engine when
  the scheduler may launch a request again whose pipeline has run dry. `Agreement` puts depth 2 beside depth 1
  and collects the places where the code does not agree; `Examples`, `LostDraft` and `MisalignedRun` have
  concrete runs that reach them.
* `Prefill`: chunked prefill, prefix-cache jumps and resets, up to the point where `AheadRun` starts.
* `PipelineDepths`, `DeviceRings`, `DevicePipeline`, `BatchLayout`: the scheduler's launch gate, the two
  kernels with threads in any order, both input and ring slots, and the order and layout of a batch.
  `ExecutedBatches` puts the steps `AheadRun` executes into such a batch.
* `Distribution`, `AdpBalance`, `NgramIndexes`, `InflightResources`, `KvSlots`, `BlockCarve`: the algorithms
  around the pipeline.
* `ByteCodecs`, `ScheduleCodecs`, `ByteBuffers`: how a schedule travels. The first two say which bytes mean
  which schedule; the last is the code that walks a buffer with a running offset. `Arrivals` reads the fields
  by name and leads back to the Executor's request in `AheadRun`.

## What is assumed

These stand in the contracts, as `World`, `WorldOk`, `Enabled` or a `requires`.

* A step yields one sampled token, never `-1`; the tokens it accepts are a prefix of its drafts. The forward
  pass, sampling and draft prediction are one arbitrary function of the step's input. The drafts it leaves are
  two lists, the merged one (`GetDraftTokens`) and the MTP ones; nothing relates the two.
* Where a theorem speaks of scanning for `-1`, neither the prompt nor any draft holds it.
* Each step's scheduled draft count is arbitrary, and the same at both depths: it is one function of the step in
  `World`. The depth-1 path plans what the last result left (`runtime/infer_request.cpp:560-561`), which depth 2
  does not know yet when it launches; that both are scheduled with the same counts is an assumption.
* The step in front of the first placeholder block carries no draft; pipelining starts behind the last prefill
  chunk, where this holds.
* A request that has seen a stop token launches nothing more. Nor does one whose pipeline has run dry, except in
  `Relaunch`, which says what becomes of it.
* `UpdateCachedRequests` gives the Executor's copy the fields that were sent. The strategy's
  `UpdateRunningRequests` retires each request of the oldest schedule in flight.
* On the device-ring path, token ids are below 2^31, a request samples at most one token a step, and every
  request forwards at least one token.

## What the proofs show about the code

1. **Unfilled slots go stale on the Executor.** The repair passes over the previous block when that block
   verified no draft (`executor/model_runner.cpp:94-112`). If slots had been reserved for drafts that never
   came, their `-1` entries stay in the sequence (`Examples.StaleSlotExample`). With at least one draft, any
   number of unfilled slots is handled.
2. **The Executor fills in MTP drafts only** (`executor/model_runner.cpp:123`, `:652`), while the Engine and the
   depth-1 path write the list merged from all sources (`runtime/infer_request.cpp:276`, `:344`, `:646`). The
   inputs would differ as soon as a draft of another source fitted into the reserved slots
   (`Examples.OtherDraftExample`). The configuration shown here keeps that from happening: PTP is switched off
   under MTP (`configure/schedule_config_parser.cpp:315-318`), the fast path is off under speculative decoding
   (`runtime/fast_path_controller.cpp:72-75`), and drafts a request brings along
   (`runtime/infer_request.cpp:60`) are cleared when it is added (`batch_scheduler/batch_scheduler.cpp:242`,
   `runtime/infer_request.cpp:411`). The condition `MtpCovers` names what the repair relies on there.
   `AheadRun.ExecutorAgrees` is therefore an equivalence, over every run: the executed inputs are the depth-1
   inputs if and only if neither 1 (for full transfers 7) nor 2 happens.
3. **The fallback for the placeholder position does fire**, exactly behind a block with unfilled slots
   (`AheadRun.FallbackFiresWhenUnfilled`, `Examples.FallbackExample`), and then picks the right block. For the
   same reason the draft count the Engine keeps is the depth-1 one only if every slot was filled.
4. **The backfill retire ignores accepted tokens** (`runtime/infer_request.cpp:253-297`). It is right for all
   results if and only if the retiring step carries no draft (`Agreement.FirstBlockNeedsNoDrafts`). A run that
   launches onto a pipeline that ran dry loses an accepted draft that way (`LostDraft.LostDraftExample`).
5. **A depth-1 style launch leaves `generated_tokens` in place** (`:388-403`), so a step launched behind it
   appends the same token again instead of a placeholder (`Agreement.LaunchBehindKnownToken`).
6. **The own-block retire clears `generated_tokens` even without a successor** (`:338`, `:367`). The sampled
   token survives if and only if the successor is in flight (`Agreement.BonusNeedsSuccessor`). From this and item 5
   it follows that, if a request may be launched again after its pipeline ran dry, its steps agree with depth 1 if
   and only if all behind the prompt are launched the same way: each while its predecessor is in flight, or each
   onto a dry pipeline (`Relaunch.RelaunchAgrees`).
7. **A full transfer does not carry the placeholder offset** (`ScheduleCodecs.OnlyPatchesNameThePlaceholder`);
   the Executor scans for the first `-1`, which is right if and only if the block before has no unfilled slot
   (`EngineRun.ScanningSnapshots`). Otherwise as many slots stay behind at the end of the input
   (`AheadRun.RepairAtScan`, `Examples.FullTransferExample`).
8. **The device ring pairs the `i`-th request with the `i`-th sampled token.** This is right if and only if
   requests without a sample stand last (`DeviceRings.AlignedExactly`), and for one request if and only if none
   stands before it (`DevicePipeline.PlaceholderGetsOwnToken`); the fast order puts middle prefill chunks first
   (`DeviceRings.MiddleChunkMisaligns`, `MisalignedRun.MisalignedExample`). Threads are launched per request, but
   only requests that forward something have a pair (`DeviceRings.EveryThreadHasAPair`).
9. **An empty batch leaves the device ring's old count**, though the comment at `samplers/sampler.cpp:273`
   says it is cleared. The model follows the code.
10. **A branch is never taken**: `TryToLaunchPlannedScheduleOutput` tests for an emptied batch that
   `IsLaunchable` excludes (`PipelineDepths.LaunchableKeepsSomething`).
11. **A planned prefill chunk starts at offset 0 after a chunk has retired**, and extends the prompt if and
    only if the planner sets the remaining offset itself (`Prefill.ChunkNeedsOffset`).
12. **The one-row KV layout keeps layers apart if and only if there is one layer**
    (`KvSlots.OneRowNeedsOneLayer`).
13. **The block carve can exceed its budget**: it fits every aligned budget if and only if the SWA share of a KV
    block is a whole number of bytes (`BlockCarve.FitsExactly`, `BlockCarve.OverrunExample`).
14. **`kv_cached_token_num` is narrowed to `int` on the wire**: it arrives if and only if it is below 2^31.
15. **A custom logits length does not survive the launch.** A reset puts it into `sampling_token_num`
    (`runtime/infer_request.cpp:433-440`), and the launch of the last chunk replaces it by one plus the drafts
    (`:639-640`, `RequestSteps.ResetLaunches`). The length itself is sent separately.
16. **A recomputed request is weighed by its input**, without the tokens it has generated and has to prefill again
    (`AdpBalance.ResetWeighsItsInput`).
17. **The decoder-only n-gram index stays exact if and only if no step brings more tokens than n-grams end in
    the generated part** (`NgramIndexes.GeneratedIndexesExactly`); otherwise it counts one that reaches into
    the prompt.

## Model

| member | source | states |
|---|---|---|
| `AheadRun.ExecutorAgrees` | projects/ksanallm-build-ahead/executor/model_runner.cpp:872-930 | in every run of both processes, whatever the interleaving of launches, executions and retires, with other requests sharing the runner and each step sent in full, as a patch or carried: the tokens, cached prefix (`kv_cached_token_num` and `prefix_cache_len`), draft count, sampling count and step kind the Executor forwards for each of the first `n` steps are the depth-1 ones if and only if each of these steps is preceded by one that verified a draft or reserved no slot (sent in full: that left no slot unfilled), and no draft but MTP ones fits into it |
| `AheadRun.AgreedRunOutput` | projects/ksanallm-build-ahead/build-ahead-mtp-serial.md:11 | end to end: in every run whose executed inputs are the depth-1 ones no check of either process fails, every result is the depth-1 one, and output and stop flag are those of depth 1 |
| `AheadRun.NextStepAgrees` | projects/ksanallm-build-ahead/executor/model_runner.cpp:872-930 | the step executed next, behind steps that all saw their depth-1 inputs, runs, and sees its own if and only if that condition holds of it |
| `EngineRun.EngineAgrees` | projects/ksanallm-build-ahead/runtime/infer_request.cpp:253-386 | in every run of the Engine, until a stop token: `forwarding_tokens` for the step just backfilled are its depth-1 tokens followed only by its unfilled slots, `kv_cached_token_num` is the depth-1 one, and the draft count is if and only if every reserved slot was filled |
| `EngineRun.OutputRefinesDepthOne` | projects/ksanallm-build-ahead/runtime/infer_request.cpp:483-563 | in every run of the Engine, for the same results: `output_tokens` are the depth-1 output, EOS is seen on the same token, a step launched past it adds nothing, and a drained request has no pending block |
| `EngineRun.QueueInvariant` | projects/ksanallm-build-ahead/runtime/infer_request.cpp:253-386 | in every run of the Engine, also after a stop token, the pending blocks tile the tail of `forwarding_tokens`; they are those of the last steps in flight, one each, in the same order and with as many slots; and the backfill test recognises the first block's predecessor and nothing else |
| `EngineRun.CachedPrefixAlways` | projects/ksanallm-build-ahead/runtime/infer_request.cpp:299-368 | in every run of the Engine, also after a stop token, `forwarding_tokens[..kv]` is the output without its last token unless a step was launched since the last retire |
| `EngineRun.ScanningSnapshots` | projects/ksanallm-build-ahead/executor/model_runner.cpp:40-54 | in every run of the Engine a launched snapshot has -1 exactly in its newest block, and the first -1 is where that block starts, each if and only if the block before was filled, given a prompt and drafts without -1 |
| `EngineRun.StepKindsTravel` | projects/ksanallm-build-ahead/runtime/infer_request.cpp:612-675 | in every run of the Engine each step in flight travelled with the sampling and draft count it was planned with, as `kPrefillChunkMid` if and only if it samples nothing and as `kDecode` if and only if it plans no prompt token; the first step ends the prefill, all others decode; the request is in the context stage until the first retire and in the decode stage from then on |
| `EngineRun.LeftPlanReservesAll` | projects/ksanallm-build-ahead/runtime/infer_request.cpp:338-364 | in every run of the Engine a retire before a stop token leaves one token and every draft its result brought to be planned; planned and launched straight from that, with no estimate, the next step reserves a slot for each and travels as if scheduled so |
| `EngineRun.StepKeeps` | projects/ksanallm-build-ahead/runtime/infer_request.cpp:483-675 | every plan, launch and retire keeps the Engine's invariant, whatever slots went unfilled |
| `EngineRun.RunKeeps` | projects/ksanallm-build-ahead/runtime/infer_request.cpp:483-675 | so does every run |
| `EngineRun.InitialInv` | projects/ksanallm-build-ahead/runtime/infer_request.cpp:612-644 | it holds when the last prefill chunk is alone in flight |
| `AheadRun.EngineRunsAlone` | projects/ksanallm-build-ahead/runtime/schedule_output.h:102-137 | in every run of both processes whose steps meet the condition the Engine goes through a run of its own, so everything above holds there too |
| `AheadRun.ScanningInTransit` | projects/ksanallm-build-ahead/executor/model_runner.cpp:40-54 | the same of every snapshot on its way to the Executor |
| `Agreement.ExecutorMatchesDepthOne` | projects/ksanallm-build-ahead/build-ahead-mtp-serial.md:11 | in every run, what the depth-2 Executor forwards for its first `n` steps is field for field (tokens, cached prefix, draft and sampling counts, kind) what the depth-1 Engine has launched as these steps, if and only if that condition holds of each |
| `Agreement.RunMatchesDepthOne` | projects/ksanallm-build-ahead/build-ahead-mtp-serial.md:11 | and then output and stop flag, after the way through Executor and Engine, are those of the depth-1 Engine |
| `Agreement.OutputMatchesDepthOne` | projects/ksanallm-build-ahead/build-ahead-mtp-serial.md:11 | output and stop flag of every depth-2 run of the Engine are those of the depth-1 Engine after the same results |
| `Agreement.CacheMatchesDepthOne` | projects/ksanallm-build-ahead/build-ahead-mtp-serial.md:11 | and so are the cached tokens and their count |
| `AheadRun.ExecutesExactly` | projects/ksanallm-build-ahead/executor/model_runner.cpp:872-930 | one executed step from any invariant state, in each transfer mode: it runs, is recorded, and sees the depth-1 input if and only if that condition holds of it |
| `AheadRun.ExecutesRepaired` | projects/ksanallm-build-ahead/executor/model_runner.cpp:872-930 | what an executed step sees in either case: the repair of its snapshot where the Engine put the block or, sent in full, where the first -1 stands |
| `AheadRun.ScanFindsStart` | projects/ksanallm-build-ahead/executor/model_runner.cpp:40-54 | scanning a full request finds the end of the previous step's depth-1 input, so an unfilled slot is taken for the block's start |
| `AheadRun.RepairAtScan` | projects/ksanallm-build-ahead/executor/model_runner.cpp:56-141 | a repair there gives the next depth-1 input if and only if no slot was unfilled and no draft but MTP ones fits: every unfilled slot stays behind at the end |
| `AheadRun.StepKeeps` | projects/ksanallm-build-ahead/runtime/schedule_output.h:102-137 | every step of either process, but an execution outside the condition, and everything other requests do to the runner, keeps the joint invariant |
| `AheadRun.RunKeeps` | projects/ksanallm-build-ahead/runtime/schedule_output.h:102-137 | along every run the executed inputs are the depth-1 ones if and only if the steps meet the condition; if all do, the joint invariant holds at its end and the Engine went through a run of its own |
| `AheadRun.InitialInv` | projects/ksanallm-build-ahead/runtime/infer_request.cpp:612-644 | the joint invariant holds when the last prefill chunk is alone in flight and the runner does not know the request |
| `AheadRun.RepairRebuildsInput` | projects/ksanallm-build-ahead/executor/model_runner.cpp:56-141 | one block repair gives the next depth-1 input if and only if the previous step had a draft to verify or no slot left unfilled, and no draft but MTP ones fits |
| `AheadRun.RepairWithoutDrafts` | projects/ksanallm-build-ahead/executor/model_runner.cpp:94-112 | with no draft in the previous block the repair treats the block as absent: right if and only if it left no unfilled slot and no draft but MTP ones fits |
| `AheadRun.RepairWithDrafts` | projects/ksanallm-build-ahead/executor/model_runner.cpp:94-141 | with drafts in the previous block the repair keeps the accepted ones, drops the rest and fills the next block with the MTP drafts, whatever the number of unfilled slots |
| `AheadRun.MtpCoversExactly` | projects/ksanallm-build-ahead/executor/model_runner.cpp:117-130 | if the merged list starts with the MTP drafts, these are what fits if and only if there are no others or the MTP drafts fill the slots |
| `AheadRun.RepairFirstInput` | projects/ksanallm-build-ahead/executor/model_runner.cpp:104-141 | the first block, with no block before it, is filled in place: right if and only if no draft but MTP ones fits |
| `AheadRun.OtherStepDiverges` | projects/ksanallm-build-ahead/executor/model_runner.cpp:94-112 | in every other case, in each transfer mode, the repair runs and its input is not the depth-1 input |
| `AheadRun.FallbackFiresWhenUnfilled` | projects/ksanallm-build-ahead/executor/model_runner.cpp:900-917 | the expected placeholder position equals the real one if and only if every reserved slot was filled; otherwise the fallback picks the right block |
| `AheadRun.RepairArguments` | projects/ksanallm-build-ahead/executor/model_runner.cpp:872-930 | the ring, the accepted-token map, the frozen drafts and `last_block` hand the repair the previous step's bonus, accepted drafts, MTP drafts and block |
| `AheadRun.OwnBatchWrites` | projects/ksanallm-build-ahead/executor/model_runner.cpp:728-792 | after a batch that held the request, its ring entry (token, accepted count, forwarded draft count) and its accepted tokens are this step's |
| `AheadRun.OtherKnowledge` | projects/ksanallm-build-ahead/executor/model_runner.cpp:728-870 | repairing, writing, freezing or forgetting other requests leaves what the runner knows of this one unchanged |
| `AheadRun.UnknownRunsAsSent` | projects/ksanallm-build-ahead/executor/model_runner.cpp:872-898 | a request the ring does not list is not repaired: it forwards its frozen fields, however they were sent and whatever newer fields lie beside them; if the ring lists no request at all, its fields as they arrived |
| `AheadRun.ForgottenIsUnknown` | projects/ksanallm-build-ahead/executor/model_runner.cpp:821-870 | a forgotten (finished or recomputed) request is unknown afterwards, so it may start over |
| `Examples.StaleSlotExample` | projects/ksanallm-build-ahead/executor/model_runner.cpp:94-112 | a run whose step 2 is executed on `[5, 6, 7, -1, 7]` where depth 1 has `[5, 6, 7, 7]` |
| `Examples.FallbackExample` | projects/ksanallm-build-ahead/executor/model_runner.cpp:900-917 | a run in which the fallback fires: the remembered block ends at 4, the next one starts at 5; the input is right all the same |
| `Examples.OtherDraftExample` | projects/ksanallm-build-ahead/executor/model_runner.cpp:117-130 | why the condition on MTP drafts is there: given a merged list with another draft that fits, a run whose step 1 verifies a draft and whose step 2 is not executed on its depth-1 input |
| `Examples.FullTransferExample` | projects/ksanallm-build-ahead/executor/model_runner.cpp:40-54 | a run whose step 2, sent in full behind an unfilled slot, is executed on `[5, 6, 7, 7, 8, -1]` where depth 1 has `[5, 6, 7, 7, 8]`; as a patch the same step is right (`Examples.FallbackExample`) |
| `Examples.ReachesStepTwo` | projects/ksanallm-build-ahead/runtime/schedule_output.h:102-137 | every request without stop tokens has a run up to the execution of its second block |
| `AheadEngine.LaunchAhead` | projects/ksanallm-build-ahead/runtime/infer_request.cpp:370-386 | an ahead launch reserves the block and freezes exactly the snapshot the step travels with |
| `AheadEngine.LaunchAnnounces` | projects/ksanallm-build-ahead/runtime/schedule_output.h:117-133 | whatever is launched, from any state, the frozen snapshot says what the step is: kind, sampling count and draft count of its workload |
| `RequestSteps.LaunchedWork` | projects/ksanallm-build-ahead/runtime/infer_request.cpp:612-674 | a launched step's workload is exactly what stands behind the cached prefix: prompt tokens, generated tokens or the slot of one, drafts or their slots; it samples one more than it drafts, the middle of a prefill nothing |
| `RequestSteps.LaunchedFillsPlan` | projects/ksanallm-build-ahead/runtime/infer_request.cpp:388-403 | a decode step with known tokens takes as much of what is at hand, generated tokens before drafts, as was planned |
| `RequestSteps.LaunchedDrafts` | projects/ksanallm-build-ahead/runtime/infer_request.cpp:388-403 | the drafts a request keeps after a launch with known tokens are the ones being verified, at the end of `forwarding_tokens` |
| `RequestSteps.LastChunkVerifies` | projects/ksanallm-build-ahead/runtime/infer_request.cpp:629-640 | the last chunk takes the drafts of the request along, and its retire leaves the prompt with exactly the accepted ones behind it |
| `RequestSteps.RetireMovesTokens` | projects/ksanallm-build-ahead/runtime/infer_request.cpp:253-546 | before a stop token a retire enters the decode stage and outputs each token it brought at most once: the generated ones, and the accepted ones unless they are left in place |
| `RequestSteps.RetireLeavesWork` | projects/ksanallm-build-ahead/runtime/infer_request.cpp:543-563 | whichever branch retires it, a step leaves its generated tokens and all its drafts to be planned |
| `RequestSteps.BooksStayBalanced` | projects/ksanallm-build-ahead/runtime/infer_request.cpp:457-481 | estimate, plan, launch and retire keep planned and remaining decode work equal, and a plan settles both |
| `RequestSteps.ResetLaunches` | projects/ksanallm-build-ahead/runtime/infer_request.cpp:405-440 | a request that is reset can be planned and launched in one go, and then prefills all its output from nothing; a custom logits length survives the launch in the sampling count if and only if it is at most 1 |
| `AheadEngine.PlaceholdersOnlyInNewestBlock` | projects/ksanallm-build-ahead/executor/model_runner.cpp:40-54 | given a prompt and drafts without -1: a launched snapshot has -1 exactly in its newest block, and scanning for it finds the launch-time offset, if and only if every slot of the block before was filled |
| `AheadEngine.ScanFindsNewestBlock` | projects/ksanallm-build-ahead/executor/model_runner.cpp:40-54 | without that hypothesis: if and only if no -1 stands before the newest block |
| `Reference.RefHasNoPlaceholder` | projects/ksanallm-build-ahead/runtime/infer_request.cpp:510-546 | no depth-1 input holds -1, by induction from the prompt and the results |
| `AheadEngine.QueueTilesTail` | projects/ksanallm-build-ahead/runtime/infer_request.cpp:253-297 | the queue tiles the tail; its front awaits its predecessor only before the first block's retire |
| `AheadEngine.RetireFirst` | projects/ksanallm-build-ahead/runtime/infer_request.cpp:253-297 | the step before the first block retires by filling that block with its bonus and drafts |
| `AheadEngine.TrimLeavesPrefix` | projects/ksanallm-build-ahead/runtime/infer_request.cpp:299-337 | trimming a step's own block leaves the committed tokens with the successor's block right behind them, at the shifted position |
| `AheadEngine.RetireOwnTokens` | projects/ksanallm-build-ahead/runtime/infer_request.cpp:299-368 | after an own-block retire `forwarding_tokens` are the committed tokens, then the successor's filled block if one is in flight |
| `AheadEngine.RetireLive` | projects/ksanallm-build-ahead/runtime/infer_request.cpp:483-563 | every retire before a stop token: output, stop flag, queue length, and the pipeline one step further |
| `AheadEngine.RetireCachesOutput` | projects/ksanallm-build-ahead/runtime/infer_request.cpp:338-368 | after an own-block retire `forwarding_tokens[..kv]` is the output without its last token |
| `AheadEngine.DrainKeeps` | projects/ksanallm-build-ahead/runtime/infer_request.cpp:487-499 | past a stop token a retire changes neither output nor tokens and pops one pending block per step |
| `Agreement.BackfillIgnoresAccepted` | projects/ksanallm-build-ahead/runtime/infer_request.cpp:253-297 | the backfill retire emits the depth-1 output if and only if nothing was accepted |
| `Agreement.FirstBlockNeedsNoDrafts` | projects/ksanallm-build-ahead/runtime/infer_request.cpp:253-297 | the step before the first block agrees with depth 1 for all accepted prefixes if and only if it carries no draft |
| `Agreement.ReservesWhenNothingIsLeft` | projects/ksanallm-build-ahead/runtime/infer_request.cpp:645-668 | a decode launch reserves a block if and only if it is ahead, on the fast path, and no generated token is left over |
| `Agreement.LaunchBehindKnownToken` | projects/ksanallm-build-ahead/runtime/infer_request.cpp:388-403 | launching with a known token leaves it in `generated_tokens`, and a step launched behind appends it a second time |
| `Agreement.BonusNeedsSuccessor` | projects/ksanallm-build-ahead/runtime/infer_request.cpp:338-368 | an own-block retire keeps the whole output reachable from the request if and only if its successor is already in flight |
| `Relaunch.RelaunchAgrees` | projects/ksanallm-build-ahead/runtime/infer_request.cpp:483-675 | in every run of an Engine whose request may be launched again whenever its pipeline has run dry, the first `n` steps travel with what agrees with depth 1 if and only if all behind step 0 were launched the same way, each ahead of its predecessor's result or each onto a dry pipeline; if all were, output and stop flag are the depth-1 ones |
| `Relaunch.StepKindsTravel` | projects/ksanallm-build-ahead/runtime/infer_request.cpp:612-675 | however its steps are launched, each one in flight travelled with the kind, sampling count and draft count it was planned with |
| `Relaunch.DryLaunch` | projects/ksanallm-build-ahead/runtime/infer_request.cpp:388-403 | a step launched onto a dry pipeline behind a step without a block travels with its depth-1 input |
| `Relaunch.LostLaunch` | projects/ksanallm-build-ahead/runtime/infer_request.cpp:338-368 | launched onto a pipeline that ran dry behind a block, it does not: its main token is gone |
| `Relaunch.SerialAhead` | projects/ksanallm-build-ahead/runtime/infer_request.cpp:388-403 | launched ahead of a step without a block, it does not either: that step's token is appended instead of a block |
| `LostDraft.LaunchesDraft` | projects/ksanallm-build-ahead/runtime/infer_request.cpp:388-403 | onto a pipeline that ran dry behind a block a step takes its drafts along and nothing else |
| `LostDraft.DropsAccepted` | projects/ksanallm-build-ahead/runtime/infer_request.cpp:253-297 | with such a step in front of a block, whatever it accepts never reaches the output |
| `LostDraft.LostDraftExample` | projects/ksanallm-build-ahead/runtime/infer_request.cpp:253-297 | a run of the Engine that outputs `[5, 6, 7, 8, 7, 7]` where depth 1 has `[5, 6, 7, 8, 7, 8, 7]` |
| `DepthOne.RetireKeeps` | projects/ksanallm-build-ahead/runtime/infer_request.cpp:510-563 | at depth 1 a retire leaves the reference output and committed tokens, all of them cached, and stops exactly on a stop token |
| `DepthOne.LaunchKeeps` | projects/ksanallm-build-ahead/runtime/infer_request.cpp:645-675 | at depth 1 the next launch feeds the reference input of the next step |
| `DepthOne.Run` | projects/ksanallm-build-ahead/runtime/infer_request.cpp:483-675 | the depth-1 run is at step `k` with the reference input in flight, down to sampling count, kind and stage |
| `DepthOne.LeftRunFeedsAll` | projects/ksanallm-build-ahead/runtime/infer_request.cpp:543-563 | in every depth-1 run that plans straight from what each retire left, every launch succeeds and step `k` is fed the committed tokens, the bonus token and all drafts of the step before |
| `Reference.OutputIsPrefix` | projects/ksanallm-build-ahead/runtime/infer_request.cpp:510-546 | the reference output is the committed prefix and the last bonus token |
| `Prefill.PrefillRebuilds` | projects/ksanallm-build-ahead/runtime/infer_request.cpp:405-440 | after a reset from any state, any chunking at depth 1 or 2, with or without cache hits: no check fails, `forwarding_tokens` are the output up to where the chunks reach, each chunk travels with the prompt up to its end, its own offset as cached prefix and the kind that tells whether it samples, chunks never overlap, what remains behind them strictly decreases, and exactly the chunk that ends the prompt samples |
| `Prefill.RemainingDecreases` | projects/ksanallm-build-ahead/runtime/infer_request.cpp:469-481 | in every such prefill no event adds to the remaining count, and planning a chunk takes exactly that chunk off it |
| `Prefill.LaunchBuilds` | projects/ksanallm-build-ahead/runtime/infer_request.cpp:612-644 | launching a chunk makes `forwarding_tokens` the prompt up to its end, `kv_cached_token_num` its offset, and freezes exactly that |
| `Prefill.PlanKeeps` | projects/ksanallm-build-ahead/runtime/infer_request.cpp:469-481 | planning a chunk strictly decreases what remains |
| `Prefill.RetireDrops` | projects/ksanallm-build-ahead/runtime/infer_request.cpp:501-505 | retiring a middle chunk drops what it returned and changes no token |
| `Prefill.ResetStarts` | projects/ksanallm-build-ahead/runtime/infer_request.cpp:405-440 | a reset from any state, with any steps in flight, queues the whole output so far |
| `Prefill.LastChunkStarts` | projects/ksanallm-build-ahead/runtime/infer_request.cpp:612-644 | the last chunk alone in flight is where every depth-2 run starts, and straight after its launch where the depth-1 run starts |
| `Prefill.ChunkNeedsOffset` | projects/ksanallm-build-ahead/runtime/infer_request.cpp:612-625 | a planned chunk extends the prompt if and only if the planner cut it at the remaining offset |
| `Prefill.RetiredChunkPlansFromZero` | projects/ksanallm-build-ahead/runtime/infer_request.cpp:556-559 | the planning workload a retired chunk leaves starts at offset 0 |
| `InferRequests.InferRequest.LaunchPlanningTask` | projects/ksanallm-build-ahead/runtime/infer_request.cpp:578-675 | the whole new state of the request equals the specification's launch |
| `InferRequests.InferRequest.LaunchPrefillChunk` | projects/ksanallm-build-ahead/runtime/infer_request.cpp:612-644 | prefill branch: continue, or assign on a cache hit; only the last chunk samples |
| `InferRequests.InferRequest.LaunchDecodeStep` | projects/ksanallm-build-ahead/runtime/infer_request.cpp:645-668 | decode branch: reserve a block or append known tokens |
| `InferRequests.InferRequest.ReserveBuildAheadPlaceholderBlock` | projects/ksanallm-build-ahead/runtime/infer_request.cpp:370-386 | one placeholder and one per draft slot, and the block's position and slot count queued |
| `InferRequests.InferRequest.AppendDecodeTokensWithoutPlaceholder` | projects/ksanallm-build-ahead/runtime/infer_request.cpp:388-403 | known tokens and as many drafts as resources allow |
| `InferRequests.InferRequest.UpdateAfterInflightTaskFinished` | projects/ksanallm-build-ahead/runtime/infer_request.cpp:483-563 | the whole new state equals the specification's retire, in each of its branches |
| `InferRequests.InferRequest.TryRetireBackfillNextPlaceholderBlock` | projects/ksanallm-build-ahead/runtime/infer_request.cpp:253-297 | fills the queue's front block exactly when it still awaits its predecessor |
| `InferRequests.InferRequest.RetireOwnPlaceholderBlockAndShift` | projects/ksanallm-build-ahead/runtime/infer_request.cpp:299-368 | trims the own block, shifts later positions, fills the successor's block, settles the cached count |
| `InferRequests.InferRequest.ResetPrefillingTokens` | projects/ksanallm-build-ahead/runtime/infer_request.cpp:405-440 | drops every launched, reserved or planned step and queues all output for prefill |
| `InferRequests.InferRequest.SetPlanningTask` | projects/ksanallm-build-ahead/runtime/infer_request.cpp:469-481 | moves the planned workload out of the remaining one |
| `InferRequests.InferRequest.SetInflightTaskGenResultEstimation` | projects/ksanallm-build-ahead/runtime/infer_request.cpp:457-463 | sets the estimate in both workloads |
| `InferRequests.InferRequest.ResetInflightTask` | projects/ksanallm-build-ahead/runtime/infer_request.cpp:565-576 | pops the oldest step in flight and keeps the order of the others |
| `HostRings.LookupBuildAheadHostRingEntry` | projects/ksanallm-build-ahead/runtime/infer_stage.h:42-70 | the linear scan over the flat ring is a lookup by id |
| `HostRings.WriteRefines` | projects/ksanallm-build-ahead/executor/model_runner.cpp:728-792 | keeping absent requests and appending the batch is map override, and ids stay unique |
| `HostRings.ClearRefines` | projects/ksanallm-build-ahead/executor/model_runner.cpp:821-870 | dropping ids from the ring is domain subtraction |
| `HostRings.FindRefines` | projects/ksanallm-build-ahead/runtime/infer_stage.h:42-70 | scanning entries is map lookup |
| `HostRings.CellsRoundTrip` | projects/ksanallm-build-ahead/runtime/infer_stage.h:79-86 | writing entries into cells and reading them back gives the same entries |
| `HostRings.CountCuts` | projects/ksanallm-build-ahead/runtime/infer_stage.h:42-70 | a reader stops at the count, and where the cells run out |
| `HostRings.HostRing.WriteEntry` | projects/ksanallm-build-ahead/runtime/infer_stage.h:79-86 | writes one entry and no other cell |
| `HostRings.HostRing.Init` | projects/ksanallm-build-ahead/runtime/infer_stage.h:73-76 | sizes the flat ring and sets its count |
| `ModelRunners.AgreesAlways` | projects/ksanallm-build-ahead/executor/model_runner.cpp:728-870 | in every run of a fresh runner the ring's ids are unique and its ids and accepted counts are those of the accepted-token map |
| `ModelRunners.WriteStepRefines` | projects/ksanallm-build-ahead/executor/model_runner.cpp:728-792 | writing a step overrides the ring's map at the batch's producers and nowhere else |
| `ModelRunners.ForgetRefines` | projects/ksanallm-build-ahead/executor/model_runner.cpp:821-870 | forgetting is domain subtraction on the ring's map |
| `ModelRunners.ForgetEmptiesRing` | projects/ksanallm-build-ahead/executor/model_runner.cpp:821-870 | a ring all of whose requests are forgotten is emptied |
| `ModelRunners.RepairStep` | projects/ksanallm-build-ahead/executor/model_runner.cpp:872-930 | a repair inside a batch does what it would have done alone and leaves every other request's state alone |
| `ModelRunners.RepairLeavesBlock` | projects/ksanallm-build-ahead/executor/model_runner.cpp:56-141 | a repair leaves the ring's token, never the placeholder, right behind the cached prefix, then as many of the drafts as are verified, and a sampling count of one more than these; it records where the block stands and uses the frozen drafts up |
| `ModelRunners.RepairIsSplice` | projects/ksanallm-build-ahead/executor/model_runner.cpp:56-141 | whatever its arguments, a repair makes of the sequence: what stands up to the previous block's main token, or else up to the reserved block, then the accepted drafts, the bonus token, the drafts that fit, and what stood behind the reserved block |
| `ModelRunners.OwnDraftsStandIn` | projects/ksanallm-build-ahead/executor/model_runner.cpp:918-924 | where no MTP drafts were frozen, the repair uses the request's own as if they had been |
| `ModelRunners.ModelRunner.RepairMtpSerialBlock` | projects/ksanallm-build-ahead/executor/model_runner.cpp:56-141 | the in-place repair equals the specification's, and reports whether it ran |
| `ModelRunners.ModelRunner.ApplyCpuBuildAheadRepairFromRing` | projects/ksanallm-build-ahead/executor/model_runner.cpp:872-930 | every request of the batch is repaired as if it were alone |
| `ModelRunners.ModelRunner.WriteMtpSerialHostRingAfterGenerationState` | projects/ksanallm-build-ahead/executor/model_runner.cpp:728-792 | ring and accepted-token map after a step |
| `ModelRunners.ModelRunner.ClearMtpSerialStateForLifecycle` | projects/ksanallm-build-ahead/executor/model_runner.cpp:821-870 | ring and maps after requests finish or are recomputed |
| `ModelRunners.ModelRunner.FreezeDrafts` | projects/ksanallm-build-ahead/executor/model_runner.cpp:650-653 | the step's drafts are frozen for the next repair |
| `PipelineDepths.InflightAccounting` | projects/ksanallm-build-ahead/batch_scheduler/batch_scheduler.cpp:352-428 | in every run each request has as many steps in flight as schedules in flight that launched it, never more than the limit; none of these is empty; the fast-path depth is their number, at most two; the oldest can always return |
| `PipelineDepths.LaunchOutcome` | projects/ksanallm-build-ahead/batch_scheduler/batch_scheduler.cpp:352-413 | a launch succeeds if and only if some request is ready, all ready ones have capacity and the pipeline has room; then it starts one step of each ready request, which all stay in the batch; launched or refused for want of room, the batch is shared out, in order and with multiplicity: stopped requests are reported, all others handed on; refused otherwise, nothing changes |
| `PipelineDepths.AheadMeansPreviousSchedule` | projects/ksanallm-build-ahead/batch_scheduler/batch_scheduler.cpp:385-410 | a request that has a step in flight when a schedule is launched was launched by the schedule right before |
| `PipelineDepths.LaunchableKeepsSomething` | projects/ksanallm-build-ahead/batch_scheduler/batch_scheduler.cpp:381-383 | the branch for an emptied batch is never taken |
| `PipelineDepths.BatchScheduler.TryToLaunchPlannedScheduleOutput` | projects/ksanallm-build-ahead/batch_scheduler/batch_scheduler.cpp:352-413 | gate state, result, handed-on and stopped requests equal the specification's, of which `LaunchOutcome` says what they are |
| `PipelineDepths.BatchScheduler.LaunchScheduleOutput` | projects/ksanallm-build-ahead/runtime/schedule_output.h:102-137 | launches each planned, unstopped request and says whether any was |
| `PipelineDepths.BatchScheduler.CheckLaunchable` | projects/ksanallm-build-ahead/runtime/schedule_output.h:60-75 | some request is ready and every ready one has capacity |
| `PipelineDepths.BatchScheduler.UpdateWithGenerationResult` | projects/ksanallm-build-ahead/batch_scheduler/batch_scheduler.cpp:415-428 | frees one pipeline slot and retires the oldest schedule's requests |
| `DevicePipeline.PlaceholdersGetPreviousToken` | projects/ksanallm-build-ahead/executor/model_runner.cpp:431-444 | in every run of the device-ring path, for any batches and any thread order, each placeholder that ends a request's input is replaced by the token sampled at that request's index in the step right before, and every other input id, -1 included, is unchanged |
| `DevicePipeline.PlaceholderGetsOwnToken` | projects/ksanallm-build-ahead/samplers/sampler.cpp:270-289 | in every such run that is the token sampled for the request, whatever is sampled, if and only if no request without a sample stands before it in the batch right before |
| `DevicePipeline.SlotsAreFree` | projects/ksanallm-build-ahead/executor/model_runner.cpp:355-362 | in every run a batch is built into a slot whose previous batch has returned, and built batches still stand in their slots |
| `DevicePipeline.StepKeeps` | projects/ksanallm-build-ahead/executor/model_runner.cpp:355-444 | every launch, build, execution and return keeps the pipeline's invariant |
| `DevicePipeline.LaunchAwaits` | projects/ksanallm-build-ahead/batch_scheduler/batch_scheduler.cpp:385-410 | a placeholder's token is sampled by the batch launched right before |
| `DeviceRings.LaunchReplaceLastTokenKernel` | projects/ksanallm-build-ahead/layers/replace_last_token.cu:60-68 | whatever the thread order, the slots named by the pairs are filled by lookup and all others unchanged |
| `DeviceRings.ReplacedIsUnique` | projects/ksanallm-build-ahead/layers/replace_last_token.cu:18-41 | that specification determines the result, so the order does not matter |
| `DeviceRings.ReplaceLastTokenThread` | projects/ksanallm-build-ahead/layers/replace_last_token.cu:18-41 | one thread's scan and write |
| `DeviceRings.LaunchWriteRingKernel` | projects/ksanallm-build-ahead/layers/replace_last_token.cu:70-78 | whatever the thread order, the ring lists the batch; an empty batch leaves the old count and entries |
| `DeviceRings.WriteRingThread` | projects/ksanallm-build-ahead/layers/replace_last_token.cu:45-56 | one thread's cells, and the count from thread 0 |
| `DeviceRings.WrittenIsMap` | projects/ksanallm-build-ahead/layers/replace_last_token.cu:18-56 | a written ring maps each id of the batch to the token at its index, and no other id, whose placeholder stays |
| `DeviceRings.AlignedExactly` | projects/ksanallm-build-ahead/samplers/sampler.cpp:270-289 | the kernel pairs every sampling request with its own token if and only if no request without a sample stands before one with |
| `DeviceRings.OwnTokenExactly` | projects/ksanallm-build-ahead/samplers/sampler.cpp:270-289 | it pairs one request with its own token, whatever is sampled, if and only if no request without a sample stands before that one |
| `MisalignedRun.MisalignedExample` | projects/ksanallm-build-ahead/samplers/sampler.cpp:270-289 | a run whose first batch, in the fast order, has a middle chunk in front: the other request's placeholder becomes 200 where its own token is 100 |
| `DeviceRings.MiddleChunkMisaligns` | projects/ksanallm-build-ahead/executor/model_builder.h:94-132 | in the fast order a middle prefill chunk stands before every decoding request of its group, so the pairing is then wrong |
| `DeviceRings.EveryThreadHasAPair` | projects/ksanallm-build-ahead/models/common_model.cpp:393-404 | every launched thread has a pair if and only if every request forwards something |
| `DeviceRings.NarrowingKeepsToken` | projects/ksanallm-build-ahead/layers/replace_last_token.cu:35-36 | narrowing a token id to 32 signed bits keeps it if and only if it is below 2^31 |
| `Distribution.GreedyBound` | projects/ksanallm-build-ahead/batch_scheduler/batch_scheduler.cpp:636-668 | every rank's load is within `2 - 1/m` of the maximum any other assignment keeps to, for any initial loads, token counts and order |
| `Distribution.LargestFirstBound` | projects/ksanallm-build-ahead/batch_scheduler/batch_scheduler.cpp:642-668 | from empty ranks, largest first, within `4/3 - 1/(3m)` |
| `Distribution.WorkloadsWithin` | projects/ksanallm-build-ahead/batch_scheduler/batch_scheduler.cpp:645-668 | the first bound, of the workloads the method leaves |
| `Distribution.WorkloadsFromEmptyRanks` | projects/ksanallm-build-ahead/batch_scheduler/batch_scheduler.cpp:642-668 | the second bound, of the workloads the method leaves |
| `Distribution.QueuesConserve` | projects/ksanallm-build-ahead/batch_scheduler/batch_scheduler.cpp:663-664 | the queues together hold every request as often as it was handed in |
| `Distribution.DistributeRequestsByToken` | projects/ksanallm-build-ahead/batch_scheduler/batch_scheduler.cpp:636-668 | each rank's queue grows by what the greedy assignment gives it and its workload by as many tokens |
| `Distribution.FindBestRank` | projects/ksanallm-build-ahead/batch_scheduler/batch_scheduler.cpp:651-661 | the loop finds the first rank with the least load |
| `Distribution.LeastRankIsFirst` | projects/ksanallm-build-ahead/batch_scheduler/batch_scheduler.cpp:651-661 | every rank before the chosen one has strictly more load |
| `Distribution.LargeJobFits` | projects/ksanallm-build-ahead/batch_scheduler/batch_scheduler.cpp:645-668 | a request larger than a third of the optimum always fits within it on the least loaded rank |
| `AdpBalance.BalanceConserves` | projects/ksanallm-build-ahead/batch_scheduler/batch_scheduler.cpp:730-830 | whichever branch is taken, all queues together hold each request as often as before |
| `AdpBalance.DeferralsAreBounded` | projects/ksanallm-build-ahead/batch_scheduler/batch_scheduler.cpp:681-728 | prefill is put off at most `max_waiting_steps` times in a row, whatever requests arrive, finish or grow between the calls |
| `AdpBalance.DefersExactly` | projects/ksanallm-build-ahead/batch_scheduler/batch_scheduler.cpp:681-830 | a first call, or one after a row of deferrals, defers if and only if there are fewer requests than ranks, every rank has one running, and neither the configured number of calls nor, unless it is the first itself, the configured time has gone by since the first |
| `AdpBalance.CollectedAreWeighed` | projects/ksanallm-build-ahead/batch_scheduler/batch_scheduler.cpp:731-775 | each collected request comes from a waiting queue and weighs there what that queue counts |
| `AdpBalance.PendingIsUncached` | projects/ksanallm-build-ahead/batch_scheduler/batch_scheduler.cpp:738-745 | the weight is the tokens behind the cached prefix, of the sequence or else of the input, and at least 1 |
| `AdpBalance.ResetWeighsItsInput` | projects/ksanallm-build-ahead/batch_scheduler/batch_scheduler.cpp:738-745 | a request that starts over weighs what it has to prefill if and only if that is its input; a recomputed one is weighed without what it has generated |
| `AdpBalance.AdpBalancer.BalanceADPRequests` | projects/ksanallm-build-ahead/batch_scheduler/batch_scheduler.cpp:730-830 | proceeds if and only if there are enough requests, some rank has none running, or the wait timed out; both branches' queues, counter and clock |
| `AdpBalance.AdpBalancer.Collect` | projects/ksanallm-build-ahead/batch_scheduler/batch_scheduler.cpp:731-775 | takes every waiting request out of its queue once, with its token count |
| `AdpBalance.SortSorts` | projects/ksanallm-build-ahead/batch_scheduler/batch_scheduler.cpp:642-646 | sorting is a permutation, largest first |
| `InflightResources.SlotPool.ProcessScheduleOutput` | projects/ksanallm-build-ahead/executor/inflight_resource.cpp:64-98 | runs out of slots if and only if survivors and running requests together outnumber them; otherwise survivors keep their slot, exactly survivors and running requests hold one, and no two share |
| `InflightResources.ProcessedServes` | projects/ksanallm-build-ahead/executor/inflight_resource.cpp:64-98 | every running request holds a slot; any other holds one, the same as before, if and only if it held one, has neither finished nor been recomputed, and is live where inactive ones are cleared |
| `InflightResources.SlotIsStable` | projects/ksanallm-build-ahead/executor/inflight_resource.cpp:64-98 | over all runs a request keeps one slot for itself until an output drops it |
| `InflightResources.SlotPool.Alloc` | projects/ksanallm-build-ahead/executor/inflight_resource.cpp:92-96 | idempotent; fails only when every slot is taken |
| `InflightResources.SlotPool.FreeInactive` | projects/ksanallm-build-ahead/executor/inflight_resource.cpp:92-94 | frees exactly the holders that are not live |
| `NgramIndexes.RunNeverRepeats` | projects/ksanallm-build-ahead/samplers/sampler.cpp:183-231 | in every single-token run that samples no banned token no n-gram ending in the generated part repeats an earlier one, and the index stays exact |
| `NgramIndexes.BannedExactly` | projects/ksanallm-build-ahead/samplers/sampler.cpp:183-206 | a token is banned if and only if appending it would repeat an n-gram |
| `NgramIndexes.ExtendedIndexes` | projects/ksanallm-build-ahead/samplers/sampler.cpp:221-229 | the incrementally updated index equals, as multisets per context, the one rebuilt from the whole sequence, for any number of tokens per step |
| `NgramIndexes.NgramIndex.GetNgrams` | projects/ksanallm-build-ahead/samplers/sampler.cpp:163-181 | builds the index of the whole sequence, once |
| `NgramIndexes.NgramIndex.NoRepeatNgramProcessor` | projects/ksanallm-build-ahead/samplers/sampler.cpp:208-231 | which branch updates the index, that it is exact afterwards, and what is banned |
| `NgramIndexes.NgramIndex.EncoderNoRepeatNgramProcessor` | projects/ksanallm-build-ahead/samplers/sampler.cpp:233-248 | indexes the prompt only |
| `NgramIndexes.NgramIndex.DecoderNoRepeatNgramProcessor` | projects/ksanallm-build-ahead/samplers/sampler.cpp:250-268 | adds the last step's n-grams and bans from the result; the index of the generated part stays exact if and only if the step brings no more tokens than n-grams end there |
| `NgramIndexes.GeneratedIndexesExactly` | projects/ksanallm-build-ahead/samplers/sampler.cpp:250-268 | a step that brings more tokens than that adds an n-gram reaching into the prompt, and only then is the index of the generated part wrong |
| `BatchLayout.LessIsStrictTotalOrder` | projects/ksanallm-build-ahead/executor/model_builder.h:43-132 | both comparators are irreflexive and transitive, and total on distinct ids |
| `BatchLayout.SortedIsUnique` | projects/ksanallm-build-ahead/executor/model_builder.h:43-132 | a batch has exactly one sorted permutation under either comparator |
| `BatchLayout.SortedGroups` | projects/ksanallm-build-ahead/executor/model_builder.h:43-132 | dp groups are contiguous; within one, non-paged before paged (fast) or prefill before decode (slow); among these more tokens to compute first, then the shorter cached prefix, then the smaller id |
| `BatchLayout.ResetLogitsOffsetsAfterReorder` | projects/ksanallm-build-ahead/executor/model_builder.h:136-142 | each request's logits start where those before it end |
| `BatchLayout.RangesCover` | projects/ksanallm-build-ahead/executor/model_builder.h:136-142 | every sample of the batch belongs to a request |
| `BatchLayout.RangesDisjoint` | projects/ksanallm-build-ahead/executor/model_builder.h:136-142 | and to only one |
| `BatchLayout.PrepareInputIds` | projects/ksanallm-build-ahead/models/model_input.cpp:909-997 | flat input ids, (id, last offset) pairs and logits positions of the batch |
| `BatchLayout.LogitsPointAtWantedTokens` | projects/ksanallm-build-ahead/models/model_input.cpp:980-990 | `logits_idx_list[logits_offset + i]` is the position of the `i`-th of the request's last sampled tokens |
| `BatchLayout.LogitsStayInside` | projects/ksanallm-build-ahead/models/model_input.cpp:980-990 | these lie in the request's own input if and only if it forwards at least as many tokens as it samples |
| `BatchLayout.ForwardsUncovered` | projects/ksanallm-build-ahead/models/model_input.cpp:909-978 | a token is forwarded if and only if neither the cached tokens nor the prefix with what was copied behind it cover it |
| `ExecutedBatches.DecodeStepLayout` | projects/ksanallm-build-ahead/executor/model_builder.h:94-132 | a decode step forwards as many tokens as it samples; it is paged if and only if it has no draft, and a decode step on the slow path if and only if its drafts stay below the threshold, both only behind a cached prefix |
| `ExecutedBatches.PrefillStepLayout` | projects/ksanallm-build-ahead/executor/model_builder.h:94-132 | the end of a prefill forwards what stands behind its cached prefix and samples one token; it counts as paged if and only if exactly one token is left, as a decode step if and only if at most `threshold` are |
| `ExecutedBatches.ExecutedStepsSampleTheirInput` | projects/ksanallm-build-ahead/models/model_input.cpp:980-990 | in every run whose executed inputs are the depth-1 ones, each step behind the prefill finds, wherever it stands in its batch, a logits row for every token it forwards, in their order |
| `BatchLayout.PairPointsAtLastToken` | projects/ksanallm-build-ahead/models/model_input.cpp:948-953 | each pair points at its request's last input token |
| `BatchLayout.PairsIncrease` | projects/ksanallm-build-ahead/models/model_input.cpp:948-953 | pair offsets strictly increase |
| `KvSlots.SlotsAreDistinct` | projects/ksanallm-build-ahead/executor/model_builder.cpp:139-164 | no two (block, layer, offset) share a slot in the standard and the MLA layout |
| `KvSlots.OneRowNeedsOneLayer` | projects/ksanallm-build-ahead/executor/model_builder.cpp:150-157 | the one-row layout keeps layers apart if and only if there is one layer |
| `KvSlots.KeysAndValuesAreDisjoint` | projects/ksanallm-build-ahead/models/model_input.cpp:718-732 | no key slot is a value slot |
| `KvSlots.EverySlotIsUsed` | projects/ksanallm-build-ahead/models/model_input.cpp:718-732 | every slot of the pool is a key or a value slot of some block, layer and offset |
| `KvSlots.MlaUsesEverySlot` | projects/ksanallm-build-ahead/executor/model_builder.cpp:148-157 | in the MLA layout every slot of the pool is a key slot |
| `KvSlots.SlotsStayInPool` | projects/ksanallm-build-ahead/models/model_input.cpp:718-732 | keys and half-block-shifted values stay inside the pool |
| `KvSlots.OwnTokensDiffer` | projects/ksanallm-build-ahead/models/model_input.cpp:802-820 | a request's tokens have different slots when its blocks differ |
| `KvSlots.TokensHaveOwnSlots` | projects/ksanallm-build-ahead/models/model_input.cpp:802-841 | tokens of any requests share a slot only in the same block, layer and place |
| `KvSlots.FillSlotMapping` | projects/ksanallm-build-ahead/models/model_input.cpp:802-820 | the mapping loop writes each token's slot in each layer and no other cell |
| `BlockCarve.CarveBound` | projects/ksanallm-build-ahead/configure/schedule_config_parser.cpp:1166-1218 | KV and SWA blocks take less than the budget plus one byte per KV block, and stay within it without SWA |
| `BlockCarve.FitsExactly` | projects/ksanallm-build-ahead/configure/schedule_config_parser.cpp:1166-1218 | they stay within every aligned budget if and only if the SWA share of a KV block is a whole number of bytes |
| `BlockCarve.OverrunExample` | projects/ksanallm-build-ahead/configure/schedule_config_parser.cpp:1166-1218 | sizes for which 8 bytes are carved into 10 |
| `BlockCarve.BudgetsFit` | projects/ksanallm-build-ahead/configure/schedule_config_parser.cpp:1133-1160 | budgets are aligned and leave what has to stay free |
| `BlockCarve.RatioBudgetIsLargest` | projects/ksanallm-build-ahead/configure/schedule_config_parser.cpp:1134-1140 | an aligned amount is within the device budget if and only if it is within the ratio and what is free |
| `BlockCarve.ReserveBudgetIsLargest` | projects/ksanallm-build-ahead/configure/schedule_config_parser.cpp:1141-1149 | without a ratio: if and only if it leaves the reserved share of what is free in whole units |
| `BlockCarve.HostBudgetIsLargest` | projects/ksanallm-build-ahead/configure/schedule_config_parser.cpp:1151-1157 | within the host budget if and only if within its factor of the device budget and four fifths of what is free |
| `BlockCarve.BlocksAreMost` | projects/ksanallm-build-ahead/configure/schedule_config_parser.cpp:1180-1195 | as many blocks are carved as fit into the budget, but no more than a limit of at least one |
| `BlockCarve.UsableExactly` | projects/ksanallm-build-ahead/configure/schedule_config_parser.cpp:1200-1207 | a step's tokens are usable if and only if the blocks they take up leave the launch threshold free |
| `BlockCarve.ScheduleConfig.CalculateBlockNumber` | projects/ksanallm-build-ahead/configure/schedule_config_parser.cpp:1133-1222 | refuses exactly when no block is left above the launch threshold; else cuts a step's tokens to the usable blocks |
| `ScheduleCodecs.SentScheduleArrives` | projects/ksanallm-build-ahead/runtime/schedule_output.cpp:726-876 | decoding an encoded schedule gives ids, full requests and patches back in order, each running request in one of the two, and consumes exactly the written bytes |
| `ScheduleCodecs.ScheduleRoundTrip` | projects/ksanallm-build-ahead/runtime/schedule_output.cpp:726-876 | round trip of any well-formed schedule |
| `ScheduleCodecs.FullRequestRoundTrip` | projects/ksanallm-build-ahead/runtime/schedule_output.cpp:260-595 | a full request arrives as sent, with its conditional embedding and generator sections |
| `ScheduleCodecs.PatchesRoundTrip` | projects/ksanallm-build-ahead/runtime/schedule_output.cpp:597-715 | patches arrive as sent |
| `ScheduleCodecs.KvIsNarrowed` | projects/ksanallm-build-ahead/runtime/schedule_output.cpp:360-361 | `kv_cached_token_num` survives its narrowing to int if and only if it is below 2^31 |
| `ScheduleCodecs.OnlyPatchesNameThePlaceholder` | projects/ksanallm-build-ahead/runtime/schedule_output.cpp:597-653 | a full request does not carry the placeholder offset, a patch does |
| `Arrivals.PatchReadsBack` | projects/ksanallm-build-ahead/runtime/schedule_output.cpp:749-785 | read as the deserializer reads it, a patch gives back every field under its own name: the frozen value if the launch left a snapshot, else the live one |
| `Arrivals.FullReadsBack` | projects/ksanallm-build-ahead/runtime/schedule_output.cpp:260-595 | so does a full request, including the fields that are never frozen |
| `Arrivals.ModeIsRecorded` | projects/ksanallm-build-ahead/runtime/schedule_output.cpp:741-750 | the transfer mode is the recorded one if there is one, else the live flag |
| `Arrivals.EmbeddingGoesWithContext` | projects/ksanallm-build-ahead/runtime/schedule_output.cpp:404-410 | an embedding is sent along if and only if the request is in the context stage |
| `Arrivals.SentRequestArrives` | projects/ksanallm-build-ahead/runtime/schedule_output.cpp:726-876 | each running request is found in the decoded schedule behind those of its kind in front of it |
| `Arrivals.LaunchedStepArrives` | projects/ksanallm-build-ahead/runtime/schedule_output.cpp:726-876 | from launch to execution: a frozen step, sent among any others, decoded and read, leaves exactly the request that `AheadRun` executes, in either transfer mode |
| `Arrivals.FullKvFits` | projects/ksanallm-build-ahead/runtime/schedule_output.cpp:360-361 | a full request can carry a cached token count if and only if it is below 2^31 |
| `Arrivals.IdsFit` | projects/ksanallm-build-ahead/runtime/schedule_output.cpp:726-749 | request ids can be listed if and only if each is an `int64` |
| `Arrivals.TokensFit` | projects/ksanallm-build-ahead/runtime/schedule_output.cpp:597-610 | tokens can be carried, in a patch or a full request, if and only if each is an `int` |
| `Arrivals.PatchKvFits` | projects/ksanallm-build-ahead/runtime/schedule_output.cpp:613-614 | a patch if and only if it is below 2^64 |
| `ByteCodecs.StoredExactly` | projects/ksanallm-build-ahead/runtime/schedule_output.cpp:260-436 | a value survives being stored in a field if and only if it fits it |
| `ByteBuffers.ByteBuffer.SerializeScheduleOutput` | projects/ksanallm-build-ahead/runtime/schedule_output.cpp:726-830 | the bytes behind the old offset are exactly the encoded schedule |
| `ByteBuffers.Send` | projects/ksanallm-build-ahead/runtime/schedule_output.cpp:892-909 | a schedule no longer than the fixed packet is written to its start, and the size handed on is that of its encoding |
| `ByteBuffers.SendAndReceive` | projects/ksanallm-build-ahead/runtime/schedule_output.cpp:726-876 | what the serializing code writes into a packet, the deserializing code reads back, whatever follows in the packet: the same schedule |
| `ByteBuffers.ByteBuffer.SerializeWire` | projects/ksanallm-build-ahead/runtime/schedule_output.cpp:260-436 | one full request's bytes |
| `ByteBuffers.SplitByTransfer` | projects/ksanallm-build-ahead/runtime/schedule_output.cpp:737-760 | requests are split by the snapshotted transfer mode, if filled in, else the live one |
| `ByteBuffers.ByteBuffer.DeserializeScheduleOutput` | projects/ksanallm-build-ahead/runtime/schedule_output.cpp:832-876 | reads what the decoder specifies and stops where it stops |
| `ByteBuffers.ByteBuffer.DeserializeWire` | projects/ksanallm-build-ahead/runtime/schedule_output.cpp:438-595 | the stage just read decides on the embedding, the flag on the generator |

## Left out

* CUDA, streams, events, tensors, memory copies, IPC, mutexes and blocking queues: threads and processes are
  FIFO steps of a transition system. Kernel threads run in any order, but each runs whole; two of them never
  write the same cell.
* Forward pass, attention, sampling, verification and MTP: arbitrary functions.
* The `FastPathController` gate is one boolean; YAML and environment parsing is not modelled.
* Beam search, multimodal input, grammar, profiling, `pd_v2`, access logs and step counters.
* `MergeMtpSerialForwardingPatch`, `continuous_batching`, `BalanceReqsAlgo`, `UpdateCachedRequests`,
  `UpdateRunningRequests` and the compressor's resource are not part of this model.
* `GetPlanningSequenceLen`: no claim relates it to the launched length.
* `PrepareNextNGatherIdx` and `AppendCachedTokens`.
* Primitive byte codecs, `DivRoundUp` and `RoundUp` are not part of this model: little-endian integers,
  8-byte lengths, 4-byte enums, 1-byte booleans, and the least multiple at or above are assumed.
* A request launched again after its pipeline ran dry: `EngineRun` and `AheadRun` close it, `Relaunch` covers it for
  the Engine; the Executor's side of such a step is not modelled.
* Full transfers of a request whose prompt or drafts hold `-1`: the scan would stop at these.
- AheadRun.ExecutorAgrees: full transfers only where neither the prompt nor any draft holds -1; what a run executes behind the first step outside the condition is not described, beyond that its inputs are not all the depth-1 ones.
- ByteBuffers.Send: a schedule larger than the fixed packet (`runtime/schedule_output.cpp:717-720`), which the code does not check for.
- InflightResources.SlotPool.ProcessScheduleOutput: one resource; the code applies the same loop to each registered resource, and these share no state.
- NgramIndexes.NgramIndex.NoRepeatNgramProcessor: the last step's n-grams must lie inside the sequence, as they do whenever the prompt holds `n - 1` tokens; otherwise the code reads before its start, which is not modelled.
- BatchLayout.PrepareInputIds: without custom logits slices (`request_target`), where `slice_pos` replaces the last sampled positions.
- Relaunch.RelaunchAgrees: once a step travels with other fields, the outputs behind it are not described.
- DevicePipeline.PlaceholdersGetPreviousToken: batches without empty inputs and with at most one sample a request; what empty inputs do is `DeviceRings.EveryThreadHasAPair`.
- BatchLayout.SortedIsUnique: `std::sort` is not unfolded; any sorted permutation is the same batch.
- AdpBalance.SortSorts: `std::sort` is an insertion sort here; ties may come out in another order in the code.
- Distribution.GreedyBound: workloads are naturals, so the rounding of the code's `float` workloads is not captured; below 2^24 tokens they are exact.
- Distribution.LargestFirstBound: naturals in place of `float` workloads, as above.
- Distribution.WorkloadsWithin: naturals in place of `float` workloads, as above.
- Distribution.WorkloadsFromEmptyRanks: naturals in place of `float` workloads, as above.
- Distribution.DistributeRequestsByToken: naturals in place of `float` workloads, as above.
- BlockCarve.CarveBound: sizes and ratios are reals; `float` rounding is not captured.
- BlockCarve.FitsExactly: reals in place of `float`, as above.
- BlockCarve.BudgetsFit: reals in place of `float`, as above.
- BlockCarve.ScheduleConfig.CalculateBlockNumber: reals in place of `float`, as above.
- AdpBalance.AdpBalancer.BalanceADPRequests: the clock and the request-rate window are parameters.
- KvSlots.FillSlotMapping: the multi-token copy of block tables into tensors is not modelled, nor is the single-token branch that reads the block table on the device.
