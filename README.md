# AudioMoth neural-network deployment: a verified model of its integer core

This project models, in Dafny, the parts of the AudioMoth keyword-spotting
firmware that are integer, table and state-machine logic, and proves what
that logic promises.

- **Flash-resident tensor store** (`VirtualArena`, from `src/nn/virtual_arena.c`).
  - A 32-entry tensor directory with append-only backing-store offsets
    within a 64 KiB budget.
  - An 8 KiB RAM cache that pages tensors in and evicts the least recently
    used unpinned one. It never writes back.
  - The store is a value, `Directory`, with an invariant: `ram_used` is the
    total size of the resident tensors and at most the cache size.
  - Each operation is a function over that value. The class `Arena` holds the
    C globals (the table, the counters, the function-static `flash_offset`,
    the cache buffer as an `array`), and each of its methods is proved equal
    to the function.
- **Interpreter adapters.**
  - `TflmVirtual` models `third_party/tflm_wrapper_virtual.c`: a two-slot pool
    whose tensors are ids in the tensor store, pinned on allocation.
  - `TflmStatic` models `third_party/tflm_wrapper.c`: a two-slot pool that lays
    buffers out at fixed offsets in the caller's arena.
  - `TflmApi` holds the status codes the two share.
- **Streaming inference engine** (`NnModel`, from `src/nn/nn_model.c`).
  - The Uninitialized/Ready/Error state machine and the 40 KiB + 20 KiB arena
    partition.
  - The frame counter, the integer timestamps and the LCG dummy input.
  - The 18-step loop that carries the recurrent state.
  - The thresholded, bounded detection scan.
  - The networks are parameters: the backbone, the streaming step (which may
    fail) and the float aggregation.
- **Earlier flash-swap variant** (`FlashSwap`, from `src/nn/nn_flash_swap.c`).
  - A 16-slot flash table and a 1 KiB swap buffer with a dirty flag and
    write-back.
  - Flash is an abstract byte store with page erase and program.
- **Firmware integer logic** (`Recorder`, from `src/main.c`):
  - the daily start/stop scheduler;
  - the RIFF/WAVE header size fields;
  - the oversampling-to-shift loop;
  - the DMA and record-loop ring indices.
  In this build `main` ends in an endless watchdog loop on both branches
  after `NN_Init` (src/main.c:397-400 and 413-416), so everything from
  src/main.c:419 on, the scheduler, the recording setup and the DMA path
  included, is never reached; it is modelled as written all the same.
- **Whole-system facts** (`Integration`). With the configured constants,
  `NN_ProcessAudio` never succeeds under either adapter. Each call past its
  guard still uses up a frame id.
  - Under the static adapter, the 20 KiB streaming arena passes the 1024-byte
    backbone test, so the streaming interpreter gets no hidden-state buffers.
  - Under the virtual adapter, every index other than 0 is rejected.
- `Machine` holds what the modules share: 32-bit wrap-around (`Wrap32`,
  `Inc32`), `Option`, and the lowest-free-slot search of both interpreter
  pools.

C's `uint32_t` arithmetic is written out explicitly wherever it can wrap: the
access counter, the frame counter, timestamps, the LCG and the scheduler's
additions.

A few things the code does that a reader might not expect, and that the
model keeps:
- `VirtualArena_AllocTensor` records the size rounded up to a multiple of 8
  (src/nn/virtual_arena.c:91; the field comment at
  src/nn/virtual_arena.h:23 says "aligned to 8"), but advances the
  backing-store offset by the unrounded request (src/nn/virtual_arena.c:104).
- `tflm_allocate_tensors` does not check whether the interpreter is already
  allocated. A second call on the static adapter lays the buffers out again
  (third_party/tflm_wrapper.c:111-176). A second call on the virtual adapter
  allocates a second set of tensors (third_party/tflm_wrapper_virtual.c:104-162).
- When `VirtualArena_GetTensor` cannot page a tensor in, the caller only sees
  a NULL view (src/nn/virtual_arena.c:210-213); there is no separate error
  code.
- The decision's frame id is taken before the counter is incremented
  (src/nn/nn_model.c:249). The detections are stamped later from the
  incremented counter, so they carry `(frame_id + 1) * 21` ms
  (src/nn/nn_model.c:665, 674-677).

The static adapter's size check does not count the hidden-state buffers
(see Findings). `TflmStatic.AllocateAsWritten` keeps that check, while the
pool method `TflmStatic.StaticPool.AllocateTensors` runs the corrected one;
likewise `VirtualArena.Arena.AllocTensor` and
`Recorder.Recording.DmaTransferComplete` run the corrected halves of the
other Findings rows. "## Left out" says where each departs from the code.

## Model

| member | source | states |
|---|---|---|
| Machine.Wrap32 | src/nn/virtual_arena.c:207 | the result agrees with its argument modulo 2^32 and is the argument itself when it is in range |
| Machine.Inc32 | src/nn/nn_model.c:249 | a uint32 increment: one more below UINT32_MAX, 0 at UINT32_MAX |
| Machine.Min | src/main.c:106 | the result is at most both arguments and equals one of them |
| Machine.Max | src/main.c:104 | the result is at least both arguments and equals one of them |
| Machine.FirstFree | third_party/tflm_wrapper.c:54-60 | None exactly when every slot is used; otherwise a free slot with every lower slot used |
| Machine.FreedSlotReusable | third_party/tflm_wrapper.c:322-336 | after one slot is freed, the lowest-free search finds a slot at or below it |
| TflmApi.Code | third_party/tflm_wrapper.h:17-20 | each status maps to a code in 0..3, and the code is 0 exactly for OK |
| TflmApi.CodeInjective | third_party/tflm_wrapper.h:17-20 | distinct statuses have distinct codes |
| VirtualArena.Blank | src/nn/virtual_arena.c:19-27 | the zero-initialised statics satisfy the store invariant, with no tensors, nothing resident and offset 0 |
| VirtualArena.Align8 | src/nn/virtual_arena.c:91 | the rounded size is a multiple of 8, at least the request and less than the request plus 8 |
| VirtualArena.ResidentWithinTotal | src/nn/virtual_arena.c:244-261 | the resident bytes never exceed the total allocated size, and the resident count never exceeds the table size |
| VirtualArena.Reinit | src/nn/virtual_arena.c:35-43 | Init clears the table and the counters, keeps the invariant, and leaves AllocTensor's static flash_offset as it was |
| VirtualArena.Alloc | src/nn/virtual_arena.c:76-108 | refuses, changing nothing, exactly when 32 tensors exist or the request does not fit the 64 KiB budget; otherwise issues the previous count as the id, with an 8-aligned size covering the request, at the old offset, not resident, unpinned, stamp 0; the offset advances by the unrounded request and every other record is unchanged |
| VirtualArena.AllocAsWritten | src/nn/virtual_arena.c:84-105 | the allocator with the guard and rounding in uint32 arithmetic: a refusal changes nothing, and an acceptance issues the previous count as the id |
| VirtualArena.AllocAsWrittenAgrees | src/nn/virtual_arena.c:84-105 | for requests within the budget, the allocator as written and the corrected one agree |
| VirtualArena.AllocAsWrittenAcceptsHugeRequest | src/nn/virtual_arena.c:84-105 | after a 16-byte tensor, a request of 0xFFFFFFF9 is accepted as written with size 0 and moves the offset to 9, and the corrected allocator refuses it |
| VirtualArena.Evict | src/nn/virtual_arena.c:131-157 | succeeds exactly for a valid, resident, unpinned id; then ram_used drops by exactly its size, only its residency is cleared and every other record and counter is unchanged; a refusal changes nothing |
| VirtualArena.LruOf | src/nn/virtual_arena.c:113-126 | any tensor chosen is in range, resident, unpinned and stamped below 0xFFFFFFFF |
| VirtualArena.LruOfIsLeastRecent | src/nn/virtual_arena.c:113-126 | the scan finds nothing exactly when no tensor is a candidate; otherwise it finds one with the least stamp, the lowest index on ties |
| VirtualArena.EvictUntilFits | src/nn/virtual_arena.c:174-180 | the loop only evicts droppable tensors; it reports success exactly when the request then fits, and on failure no candidate is left |
| VirtualArena.Place | src/nn/virtual_arena.c:184-191 | the tensor is placed at cache offset ram_used, ram_used grows by its size, and nothing else changes |
| VirtualArena.Load | src/nn/virtual_arena.c:162-194 | a resident id is returned unchanged; otherwise only droppable tensors are evicted; success places the tensor so that it ends at the new ram_used; failure leaves it non-resident, with no candidate left, and keeps the evictions already made |
| VirtualArena.Touch | src/nn/virtual_arena.c:207 | the tensor is stamped with the counter, the counter is incremented in uint32, and nothing else changes |
| VirtualArena.Get | src/nn/virtual_arena.c:199-217 | an invalid id yields NULL with no change; a valid id is stamped and the counter incremented even when loading fails; the view is present exactly when the tensor is resident and is its cache offset; a resident tensor is returned with no eviction |
| VirtualArena.SetPinned | src/nn/virtual_arena.c:226-239 | sets the pin flag of a valid id only, changing neither residency nor ram_used; an invalid id changes nothing |
| VirtualArena.PinnedSurvivesGet | src/nn/virtual_arena.c:174-180 | a resident pinned tensor is untouched by a get of any other id |
| VirtualArena.SetPinnedIdempotent | src/nn/virtual_arena.c:226-239 | pinning or unpinning twice is the same as once, and pinning then unpinning an unpinned tensor restores the store |
| VirtualArena.StampsIncrease | src/nn/virtual_arena.c:207-208 | two gets in a row, of the same id or of different ones, away from wrap-around, give strictly increasing stamps |
| VirtualArena.BackboneIntermediates | third_party/tflm_wrapper_virtual.c:114-134 | on a fresh store the backbone's intermediates are ids 0, 1 and 2 of 4608, 2304 and 1152 bytes, not resident and unpinned |
| VirtualArena.BackboneAllocated | third_party/tflm_wrapper_virtual.c:114-159 | after the backbone allocation the input (2880) and output (2304) are ids 3 and 4 and pinned, and the intermediates are unpinned |
| VirtualArena.GetPlacesAtEnd | src/nn/virtual_arena.c:199-217 | a get of a non-resident tensor that fits puts it at offset ram_used, stamps it, and changes no other record |
| VirtualArena.LoadEvictsOne | src/nn/virtual_arena.c:174-191 | when evicting the least recent candidate makes room, the load drops exactly that tensor and places the new one where the freed total ends |
| VirtualArena.GetEvictsOne | src/nn/virtual_arena.c:199-217 | the same for a get: exactly the least recent candidate is dropped and the tensor lands at ram_used minus its size |
| VirtualArena.BackboneInvokeTrace | third_party/tflm_wrapper_virtual.c:192-241 | the backbone's access sequence on a fresh store keeps the store invariant; Integration.TraceIsInvoke proves it is get_input followed by tflm_invoke |
| VirtualArena.BackboneOutputOverlapsConv2 | src/nn/virtual_arena.c:184 | in that sequence conv2 sits at [5184, 6336) and the output lands at [4032, 6336): two resident regions overlap |
| VirtualArena.RepackApart | src/nn/virtual_arena.c:182-192 | sliding the resident tensors down in index order keeps every residency and the resident total, puts each resident tensor below that total, and leaves no two resident regions overlapping |
| VirtualArena.LoadCompacted | src/nn/virtual_arena.c:162-194 | the corrected load: the same evictions, outcome and records as Load except for cache addresses, the store invariant kept, and every pair of resident tensors apart |
| VirtualArena.Placed | src/nn/virtual_arena.c:187-188 | copying into the cache keeps its length |
| VirtualArena.PlacedOnlyThere | src/nn/virtual_arena.c:187-188 | the copied range holds the source bytes and every other cache byte is unchanged |
| VirtualArena.Arena.constructor | src/nn/virtual_arena.c:19-27 | the statics start as the blank store, with no cache buffer |
| VirtualArena.Arena.Init | src/nn/virtual_arena.c:35-71 | the directory is re-initialised as Reinit says; the cache is allocated once, zeroed, and kept on later calls; the result is true exactly when the cache exists and the linker size is 0 or at least 64 KiB |
| VirtualArena.Arena.AllocTensor | src/nn/virtual_arena.c:76-108 | the new state and the id are those of Alloc |
| VirtualArena.Arena.FindLruTensor | src/nn/virtual_arena.c:113-126 | returns LruOf's choice, or INVALID_TENSOR_ID when there is none |
| VirtualArena.Arena.EvictTensor | src/nn/virtual_arena.c:131-157 | the new state and the result are those of Evict |
| VirtualArena.Arena.MakeRoom | src/nn/virtual_arena.c:174-180 | the new state and the result are those of EvictUntilFits |
| VirtualArena.Arena.CopyIn | src/nn/virtual_arena.c:187-188 | the cache afterwards is the old cache with the flash bytes placed at the offset |
| VirtualArena.Arena.PlaceTensor | src/nn/virtual_arena.c:184-191 | the directory is Place's, and the cache holds the tensor's flash bytes at its new offset |
| VirtualArena.Arena.LoadTensor | src/nn/virtual_arena.c:162-194 | the directory and the result are Load's; a successful page-in copies the tensor's flash bytes to its offset, and otherwise the cache bytes are unchanged |
| VirtualArena.Arena.GetTensor | src/nn/virtual_arena.c:199-217 | the directory and the view are those of Get |
| VirtualArena.Arena.PinTensor | src/nn/virtual_arena.c:226-230 | the directory is SetPinned with true |
| VirtualArena.Arena.UnpinTensor | src/nn/virtual_arena.c:235-239 | the directory is SetPinned with false |
| VirtualArena.Arena.GetStats | src/nn/virtual_arena.c:244-261 | reports the count, ram_used, the resident count and the total allocated size; nothing when the out-pointer is NULL; resident figures never exceed the totals |
| TflmVirtual.NewInterp | third_party/tflm_wrapper_virtual.c:77-99 | slot 0 is the backbone and slot 1 the streaming model, each with its fixed dimensions, not allocated |
| TflmVirtual.AllocActivation | third_party/tflm_wrapper_virtual.c:114-141 | each non-const request only appends a tensor of that size, and fails exactly when the store refuses it |
| TflmVirtual.Intermediates | third_party/tflm_wrapper_virtual.c:114-134 | one id per layer of the model, each a tensor of that layer's size |
| TflmVirtual.AllocateIds | third_party/tflm_wrapper_virtual.c:114-141 | the intermediates, the input and the output are requested with the model's sizes and recorded in the interpreter, nothing else in it changing |
| TflmVirtual.Settle | third_party/tflm_wrapper_virtual.c:143-159 | keeps the store invariant |
| TflmVirtual.Allocate | third_party/tflm_wrapper_virtual.c:104-162 | OK exactly when every requested id is valid, otherwise OUT_OF_MEMORY |
| TflmVirtual.AllocateOutcome | third_party/tflm_wrapper_virtual.c:143-159 | on failure the tensors already allocated stay and the interpreter stays unallocated; on success it is allocated and only the input and output are pinned |
| TflmVirtual.AllocatePins | third_party/tflm_wrapper_virtual.c:143-159 | no residency changes; on success the pinned tensors are exactly the old pinned ones plus the input and output, and on failure exactly the old ones |
| TflmVirtual.LayersFrom | third_party/tflm_wrapper_virtual.c:211-228 | the layer loop adds no tensors and, when every layer pages in, advances the counter once per layer |
| TflmVirtual.Invoke | third_party/tflm_wrapper_virtual.c:192-241 | ERROR with no change when not allocated; OK only when the output is left resident; a successful run stamps input, intermediates and output once each |
| TflmVirtual.LayersHit | third_party/tflm_wrapper_virtual.c:211-228 | when every layer is resident the layer loop succeeds, pages nothing and keeps every resident tensor resident |
| TflmVirtual.LayersMiss | third_party/tflm_wrapper_virtual.c:211-228 | a layer id outside the store makes the layer loop fail |
| TflmVirtual.InvokeHit | third_party/tflm_wrapper_virtual.c:192-241 | an allocated record whose input, layers and output are all resident invokes with OK and pages nothing |
| TflmVirtual.InvokeMiss | third_party/tflm_wrapper_virtual.c:192-241 | an allocated record with an input, layer or output id outside the store invokes with ERROR |
| TflmVirtual.View | third_party/tflm_wrapper_virtual.c:164-190 | NULL with no change unless the index is 0 and the interpreter is allocated; otherwise a get of the tensor |
| TflmVirtual.VirtualPool.constructor | third_party/tflm_wrapper_virtual.c:32-34 | both slots free and zeroed, arena not initialised |
| TflmVirtual.VirtualPool.CreateModel | third_party/tflm_wrapper_virtual.c:36-50 | NULL for a NULL or empty model; the store is initialised only on the first call, and a failed initialisation yields NULL |
| TflmVirtual.VirtualPool.CreateInterpreter | third_party/tflm_wrapper_virtual.c:52-102 | NULL for a NULL model or a full pool; otherwise the lowest free slot is claimed and set up as NewInterp for that slot |
| TflmVirtual.VirtualPool.AllocateIntermediates | third_party/tflm_wrapper_virtual.c:114-134 | the store and the ids are those of Intermediates |
| TflmVirtual.VirtualPool.AllocateTensors | third_party/tflm_wrapper_virtual.c:104-162 | INVALID_ARGUMENT for a NULL handle; otherwise the store, the record and the status are AllocateIds followed by Settle |
| TflmVirtual.VirtualPool.SettleAllocation | third_party/tflm_wrapper_virtual.c:143-159 | the store, the record and the status are those of Settle |
| TflmVirtual.VirtualPool.GetInputData | third_party/tflm_wrapper_virtual.c:164-176 | NULL for a NULL handle; otherwise View of the input tensor |
| TflmVirtual.VirtualPool.GetOutputData | third_party/tflm_wrapper_virtual.c:178-190 | NULL for a NULL handle; otherwise View of the output tensor |
| TflmVirtual.VirtualPool.RunLayers | third_party/tflm_wrapper_virtual.c:211-228 | the store and the result are those of LayersFrom |
| TflmVirtual.VirtualPool.InvokeInterpreter | third_party/tflm_wrapper_virtual.c:192-241 | INVALID_ARGUMENT for a NULL handle; otherwise the store and the status are those of Invoke |
| TflmVirtual.VirtualPool.DestroyInterpreter | third_party/tflm_wrapper_virtual.c:243-261 | unpins the input and output, zeroes the record and frees the slot; a handle outside the pool changes nothing |
| TflmStatic.CreateModel | third_party/tflm_wrapper.c:37-45 | NULL exactly for a NULL or empty model; otherwise the data itself |
| TflmStatic.NewStub | third_party/tflm_wrapper.c:66-106 | a backbone exactly when the arena is at least 1024 bytes, with that kind's dimensions, no buffers and nothing allocated |
| TflmStatic.NewStubOfKind | third_party/tflm_wrapper.c:66-106 | a fresh record of the kind its caller names, with that kind's dimensions, no buffers and nothing allocated |
| TflmStatic.LaidOut | third_party/tflm_wrapper.c:139-172 | the backbone gets input0 at 0 and output0 at 2880 and no index-1 buffers; the streaming model gets 0, 128, 384 and 512; arena_used is the layout end plus 256 |
| TflmStatic.AllocateAsWritten | third_party/tflm_wrapper.c:111-176 | OUT_OF_MEMORY, changing nothing, exactly when input plus output plus 256 exceeds the arena; otherwise the layout |
| TflmStatic.AllocateAsWrittenOverruns | third_party/tflm_wrapper.c:130-170 | a streaming record with a 512-byte arena passes as written, and its output1 at 512 ends past the arena |
| TflmStatic.Allocate | third_party/tflm_wrapper.c:111-176 | with the corrected check, OUT_OF_MEMORY (changing nothing) exactly when the size check fails or the layout does not fit; otherwise the layout |
| TflmStatic.AllocateAgreesAsWritten | third_party/tflm_wrapper.c:130-170 | the corrected allocation agrees with the code for every backbone, and for a streaming record except when the arena is 512 to 767 bytes |
| TflmStatic.AllocateLayoutSound | third_party/tflm_wrapper.c:139-170 | every buffer of a successful allocation lies inside the arena and no two overlap; index-1 buffers are NULL exactly for the backbone |
| TflmStatic.DimsCount | third_party/tflm_wrapper.c:261-311 | -1 unless the handle is present, the index is 0, dims is non-NULL and max_dims is large enough; otherwise 3 for a backbone and 2 for the streaming model |
| TflmStatic.StaticPool.constructor | third_party/tflm_wrapper.c:34-35 | both slots free and zeroed |
| TflmStatic.StaticPool.CreateInterpreter | third_party/tflm_wrapper.c:47-109 | NULL for a NULL model or arena, an arena under 512 bytes or a full pool; otherwise the lowest free slot holds NewStub |
| TflmStatic.StaticPool.AllocateTensors | third_party/tflm_wrapper.c:111-176 | INVALID_ARGUMENT for a NULL handle; otherwise the record and status of Allocate; on success the laid-out bytes are zeroed and the rest of the arena is unchanged |
| TflmStatic.StaticPool.GetInputData | third_party/tflm_wrapper.c:178-195 | NULL unless allocated and the index is 0 or 1; otherwise input buffer 0 or 1 |
| TflmStatic.StaticPool.GetOutputData | third_party/tflm_wrapper.c:197-214 | NULL unless allocated and the index is 0 or 1; otherwise output buffer 0 or 1 |
| TflmStatic.StaticPool.Invoke | third_party/tflm_wrapper.c:216-224 | INVALID_ARGUMENT exactly for a NULL handle; otherwise OK exactly when allocated, else ERROR |
| TflmStatic.StaticPool.GetInputDims | third_party/tflm_wrapper.c:261-285 | returns DimsCount and writes [1, 18, 40] or [1, 32], touching no other entry |
| TflmStatic.StaticPool.GetOutputDims | third_party/tflm_wrapper.c:287-311 | returns DimsCount and writes [1, 18, 32] or [1, 32], touching no other entry |
| TflmStatic.StaticPool.ArenaUsedBytes | third_party/tflm_wrapper.c:313-320 | arena_used when allocated, else 0 |
| TflmStatic.StaticPool.DestroyInterpreter | third_party/tflm_wrapper.c:322-336 | zeroes and frees exactly the matching slot; a handle outside the pool changes nothing |
| TflmStatic.Zero | third_party/tflm_wrapper.c:146-169 | the given range becomes zero and every other byte is unchanged |
| NnModel.TimestampMs | src/nn/nn_model.c:674-678 | the counter times 21 ms when that fits in 32 bits |
| NnModel.TimestampStep | src/nn/nn_model.c:674-678 | one more frame adds exactly 21 ms |
| NnModel.NextSeed | src/nn/nn_model.c:520-524 | the LCG step, masked to 31 bits, so below 2^31 |
| NnModel.SeedAfter | src/nn/nn_model.c:526-540 | after at least one draw the seed is below 2^31, and after none it is unchanged |
| NnModel.Residues | src/nn/nn_model.c:526-540 | the stand-in spectrogram has one value per draw, each below 1000 |
| NnModel.RunStreamingInference | src/nn/nn_model.c:601-632 | fails when any of the four views is NULL; otherwise it is the streaming step |
| NnModel.Row | src/nn/nn_model.c:276 | timestep t's feature row has 32 entries |
| NnModel.StepsShape | src/nn/nn_model.c:275-296 | the loop only appends, one logits row and one hidden state per completed step, at most 18 of them; it succeeds exactly when all 18 complete; the carried state is the last completed step's, or the initial one |
| NnModel.RunShape | src/nn/nn_model.c:275-296 | the same for a whole cycle from step 0 |
| NnModel.StepsFeedRow | src/nn/nn_model.c:275-296 | step k is fed feature row k and the hidden state left by step k-1, the initial one for k = 0, and records the step's outputs |
| NnModel.StepsStopAtFailure | src/nn/nn_model.c:278-281 | a failed loop stops at the first step whose inference fails, with the state of the last completed step |
| NnModel.StepsFailAtFirst | src/nn/nn_model.c:603-608 | when any view is NULL the loop fails at step 0 and keeps the hidden state |
| NnModel.StepsSucceed | src/nn/nn_model.c:275-296 | with all four views present and a model that always succeeds, every step from t on succeeds |
| NnModel.RunSucceeds | src/nn/nn_model.c:275-296 | then the whole loop succeeds with all 18 steps recorded and the last hidden state carried out |
| NnModel.AboveUpTo | src/nn/nn_model.c:656-672 | every class listed is below the bound and reaches the threshold |
| NnModel.AboveUpToAscending | src/nn/nn_model.c:656-672 | the listed classes are in strictly increasing order |
| NnModel.AboveUpToComplete | src/nn/nn_model.c:656-672 | every class below the bound that reaches the threshold is listed |
| NnModel.Scan | src/nn/nn_model.c:656-672 | the detection count only grows, up to 2, and the frame id is kept |
| NnModel.ScanSaturated | src/nn/nn_model.c:660 | once 2 detections are recorded, scanning further classes changes nothing |
| NnModel.ScanRecordsAbove | src/nn/nn_model.c:656-672 | from an empty decision, the detections are the first min(2, n) classes reaching the threshold, in order, each with its probability, the timestamp and valid set; later slots are untouched |
| NnModel.Decide | src/nn/nn_model.c:656-672 | at most 2 detections and the frame id is kept |
| NnModel.DecideSound | src/nn/nn_model.c:656-672 | every detection is valid, stamped, a real class reaching the threshold with its own probability, in strictly increasing class order; the other slots are untouched |
| NnModel.DecideComplete | src/nn/nn_model.c:656-672 | every class reaching the threshold is detected, unless two detections were already found before it |
| NnModel.Engine.constructor | src/nn/nn_model.c:31-44 | the statics start Uninitialized, with counter 0, no buffers and seed 12345 |
| NnModel.Engine.Init | src/nn/nn_model.c:72-210 | fails with no effect unless Uninitialized; otherwise succeeds exactly when arena init, the 60 KiB partition check, the buffers and the models all succeed, any failure leaving Error; success leaves Ready, counter 0, a zero hidden state, and two disjoint regions at offsets 0 and 40 KiB inside the arena |
| NnModel.Engine.Deinit | src/nn/nn_model.c:212-235 | the state becomes Uninitialized and the engine's own fields are otherwise kept; the interpreter destroys it triggers are TflmStatic.StaticPool.DestroyInterpreter and TflmVirtual.VirtualPool.DestroyInterpreter |
| NnModel.Engine.ResetStreamState | src/nn/nn_model.c:237-240 | the hidden state is zeroed and the counter reset; the state machine is unchanged |
| NnModel.Engine.DummyRand | src/nn/nn_model.c:520-524 | the seed advances by one LCG step and is returned |
| NnModel.Engine.Preprocess | src/nn/nn_model.c:526-540 | returns Residues of the old seed and leaves the seed SeedAfter it |
| NnModel.Engine.StreamSteps | src/nn/nn_model.c:275-296 | the logits, the hidden states, the success flag and the carried hidden state are those of Run |
| NnModel.Engine.FinalizeDecision | src/nn/nn_model.c:656-672 | the decision is Decide at the current timestamp |
| NnModel.Engine.ProcessAudio | src/nn/nn_model.c:242-336 | false with no change unless Ready with both pointers; otherwise the decision carries the old counter as frame id and the counter is incremented even on failure; a backbone or history failure keeps the hidden state; otherwise the hidden state is the loop's, and success is exactly the loop's, with the decision of the aggregated logits at the new timestamp |
| NnModel.Engine.RunCycles | src/nn/nn_model.c:383-411 | n cycles advance the counter by n modulo 2^32 and keep the engine Ready |
| NnModel.Engine.RunBatches | src/nn/nn_model.c:383-411 | the benchmark's batches advance the counter by 1110 modulo 2^32 |
| NnModel.Engine.SeedFromClock | src/nn/nn_model.c:370 | the seed becomes the timestamp XOR 0xDEADBEEF |
| NnModel.Engine.PerformanceTestSequence | src/nn/nn_model.c:364-421 | no change unless Ready with audio; otherwise it runs 1110 cycles and ends in Error |
| FlashSwap.SlotAddress | src/nn/nn_flash_swap.c:33-37 | slot i starts at 0x18000 + 4096 i |
| FlashSwap.SlotsDisjoint | src/nn/nn_flash_swap.c:33-37 | every slot lies inside the 64 KiB swap region and distinct slots do not overlap |
| FlashSwap.InitialSlots | src/nn/nn_flash_swap.c:33-37 | 16 slots at their addresses, 4096 bytes each, all free |
| FlashSwap.PagesFor | src/nn/nn_flash_swap.c:72 | the least number of 2048-byte pages covering the size |
| FlashSwap.PagesWithinSlot | src/nn/nn_flash_swap.c:72-75 | a tensor that fits a slot needs at most 2 pages |
| FlashSwap.ErasePage | src/nn/nn_flash_swap.c:74 | one page is set to 0xFF and every other byte is unchanged |
| FlashSwap.ErasePages | src/nn/nn_flash_swap.c:72-75 | erasing keeps the store's length |
| FlashSwap.ErasePagesRange | src/nn/nn_flash_swap.c:72-75 | n consecutive pages are set to 0xFF and every other byte is unchanged |
| FlashSwap.Program | src/nn/nn_flash_swap.c:78-79 | the data is written at the offset and every other byte is unchanged |
| FlashSwap.Store | src/nn/nn_flash_swap.c:60-80 | rejects a bad slot id, a free slot or an oversize tensor with no change; it reports success only for an accepted store whose programming succeeds |
| FlashSwap.Load | src/nn/nn_flash_swap.c:83-95 | reads exactly size bytes |
| FlashSwap.StoreLoadRoundTrip | src/nn/nn_flash_swap.c:60-95 | an accepted store that programs successfully is read back unchanged |
| FlashSwap.StoreKeepsOtherSlots | src/nn/nn_flash_swap.c:60-80 | storing into one slot never changes another slot's contents |
| FlashSwap.Swap.constructor | src/nn/nn_flash_swap.c:20-21 | the statics start uninitialised, with no swap buffer and nothing dirty |
| FlashSwap.Swap.Init | src/nn/nn_flash_swap.c:24-41 | the first call lays out the initial slots; later calls change nothing; it always succeeds |
| FlashSwap.Swap.AllocateSlot | src/nn/nn_flash_swap.c:44-57 | -1 and no change when uninitialised, oversize or full; otherwise the lowest free slot, now in use |
| FlashSwap.Swap.StoreTensor | src/nn/nn_flash_swap.c:60-80 | the result and the new flash are those of Store |
| FlashSwap.Swap.LoadTensor | src/nn/nn_flash_swap.c:83-95 | succeeds exactly when Store would accept; it then fills the first size bytes with Load and leaves the rest; a refusal changes nothing |
| FlashSwap.Swap.FreeSlot | src/nn/nn_flash_swap.c:98-102 | frees an in-range slot only; nothing else changes |
| FlashSwap.Swap.SwapArenaInit | src/nn/nn_flash_swap.c:115-126 | the slot table is initialised, and the swap buffer is 1024 bytes with no current slot and clean |
| FlashSwap.Swap.GetBuffer | src/nn/nn_flash_swap.c:129-153 | NULL with no change when oversize; no flash traffic for the current id; for another id, a dirty buffer of a real slot is written back in full and made clean, then the new slot is loaded and becomes current; a dirty flag with no current slot survives |
| FlashSwap.Swap.MarkDirty | src/nn/nn_flash_swap.c:156-158 | only the dirty flag is set |
| Recorder.StartSeconds | src/main.c:960 | a period's start, in seconds, fits the 16-bit minute range |
| Recorder.StopSeconds | src/main.c:962 | a period's stop, in seconds, fits the 16-bit minute range |
| Recorder.Clamped | src/main.c:924-928 | the active period count is clamped to at most 5, and nothing else changes |
| Recorder.CyclesAfter | src/main.c:976-978 | the least whole number of cycles, at least 1, reaching past the offset |
| Recorder.Visit | src/main.c:954-992 | a scheduled duration never exceeds the record duration; the result is undefined only for a zero cycle |
| Recorder.Tomorrow | src/main.c:996-1004 | the duration never exceeds the record duration |
| Recorder.Scan | src/main.c:954-1004 | the scan always ends scheduled or undefined; a scheduled duration never exceeds the record duration; undefined only for a zero cycle |
| Recorder.Plan | src/main.c:920-1004 | with no active periods, next is UINT32_MAX with the full duration; a duration never exceeds the record duration; undefined only with active periods and a zero cycle |
| Recorder.VisitIsLater | src/main.c:966-988 | away from wrap-around, any time a period schedules is strictly later than now and within one period span |
| Recorder.InPeriodIsLater | src/main.c:974-988 | the in-period time, summed in uint32, is strictly later than now |
| Recorder.TomorrowIsLater | src/main.c:996-1004 | tomorrow's time is strictly later than now |
| Recorder.ScanIsLater | src/main.c:954-1004 | any time the scan schedules is strictly later than now and within a day and a period |
| Recorder.PlanIsLater | src/main.c:920-1004 | every scheduled next time is strictly later than now |
| Recorder.NextStartInPeriod | src/main.c:952-984 | inside a period, the next start is the period start plus k cycles, k at least 1, and before the period stop |
| Recorder.BackupDomain.constructor | src/main.c:421-425 | on the initial power-up the configuration is given and nothing is scheduled: the next recording time and duration are both 0 |
| Recorder.BackupDomain.ScheduleRecording | src/main.c:920-1004 | writes the clamp back into the configuration and, when the plan is defined, the plan's time and duration; otherwise the out-values are unchanged |
| Recorder.HeaderFor | src/main.c:166-173 | the sample rate is stored, bytes per second is twice it, the data size is twice the sample count, and the RIFF size excludes its own 8-byte header; all in uint32 |
| Recorder.DataSamples | src/main.c:886-888 | the header samples are removed with MAX clamping, so the data length never underflows |
| Recorder.Log2 | src/main.c:732-744 | the greatest power of two not above the argument |
| Recorder.ShiftForOversampling | src/main.c:730-744 | the loops end with the value scaled into [16, 32) and the shift equal to 4 minus the value's base-2 logarithm, between -11 and 4 |
| Recorder.Log2Bounded | src/main.c:732-744 | a 16-bit value has a logarithm at most 15 |
| Recorder.Log2OfPow2 | src/main.c:732-744 | the logarithm of 2^k is k, so an oversampling factor of 2^k gives the shift 4 - k |
| Recorder.NextBuffer | src/main.c:598 | the ring index wraps from 7 to 0 and otherwise advances by one |
| Recorder.TransferSamples | src/main.c:592 | each transfer adds between 2 and 512 samples |
| Recorder.DmaStepAsWritten | src/main.c:590-600 | the handler as written either keeps the buffer or moves to the next one at index 0 |
| Recorder.DmaNeverAdvances | src/main.c:592-600 | when the step does not divide the buffer, the handler as written never changes buffer and the index grows without bound |
| Recorder.DmaOverrunsAtDivider48 | src/main.c:592-600 | with divider 48 and a 16384-sample buffer, 1639 transfers leave the index at 16390, past the buffer |
| Recorder.DmaStep | src/main.c:590-600 | the corrected handler keeps the ring index in range and always leaves room for the next transfer |
| Recorder.DmaStepAgreesWhenDividing | src/main.c:590-600 | when the step divides the buffer, the corrected handler and the code agree |
| Recorder.Pending | src/main.c:822 | the number of filled buffers between the read and write indices: zero exactly when they meet |
| Recorder.PendingShrinks | src/main.c:848 | each buffer written reduces the pending count by one |
| Recorder.WriteOne | src/main.c:834-852 | the read index advances; the samples written grow by at most a buffer, never past the target, and not at all for the skipped first buffer |
| Recorder.Drain | src/main.c:822-858 | the inner loop never exceeds the target; unless stopped it ends caught up with the writer or at the target; a stop changes nothing |
| Recorder.OutputRate | src/main.c:888 | the sample rate divided by the divider, rounded down |
| Recorder.NumberOfSamples | src/main.c:750 | the output rate times the duration when that fits in 32 bits |
| Recorder.DataWithinRequest | src/main.c:820-888 | the data length written into the header never exceeds the number of samples requested |
| Recorder.Recording.constructor | src/main.c:319-320 | the ring indices and the shift start at 0 |
| Recorder.Recording.SetHeaderDetails | src/main.c:166-173 | the header becomes HeaderFor, and nothing else changes |
| Recorder.Recording.StartRecording | src/main.c:716-744 | the ring indices are reset and the shift is 4 minus the logarithm of the oversampling |
| Recorder.Recording.DmaTransferComplete | src/main.c:582-602 | the indices follow the corrected DmaStep, leaving room for the next transfer |
| Recorder.Recording.WriteFilledBuffers | src/main.c:822-858 | the record loop's progress is Drain |
| Recorder.Recording.FinishRecording | src/main.c:886-888 | the header is set for the output rate and the clamped data length |
| Integration.StaticPorts | src/nn/nn_model.c:603-625 | each of the four views the streaming step asks the static adapter for is present exactly when the record is allocated and holds that buffer |
| Integration.StreamingLaidOutAsBackbone | third_party/tflm_wrapper.c:82-146 | the 20 KiB streaming interpreter is laid out as a backbone: allocation succeeds, input0 at 0, output0 at 2880, no hidden-state buffers |
| Integration.StaticStreamingRunFails | src/nn/nn_model.c:603-608 | under the static adapter the step loop fails at step 0 whatever the model computes, keeping the hidden state |
| Integration.CorrectedStreamingLaidOut | third_party/tflm_wrapper.c:130-170 | laid out by its own kind, the 20 KiB streaming interpreter is allocated with all four views: input at 0, hidden in at 128, output at 384, hidden out at 512 |
| Integration.CorrectedStreamingRunSucceeds | src/nn/nn_model.c:275-296 | with that record the step loop succeeds, all 18 steps recorded, whenever the model does |
| Integration.AllocatedIsAllocate | third_party/tflm_wrapper_virtual.c:104-162 | on a fresh store, allocating the backbone succeeds with intermediates 0, 1, 2, input 3 and output 4, and gives the store VirtualArena.BackboneAllocated describes |
| Integration.TraceIsInvoke | third_party/tflm_wrapper_virtual.c:192-241 | the access sequence of VirtualArena.BackboneInvokeTrace is get_input then tflm_invoke on that record, and that invoke reports OK |
| Integration.StaticStreamingInputs | src/nn/nn_model.c:603-604 | the feature and hidden-state views the static pool hands back are those StaticPorts describes |
| Integration.VirtualPorts | third_party/tflm_wrapper_virtual.c:164-190 | under the virtual adapter the hidden-state input and output views are always NULL, and the feature view is present exactly when the input pages in |
| Integration.VirtualStreamingRunFails | src/nn/nn_model.c:603-608 | under the virtual adapter the step loop fails at step 0 too |
| Integration.ProcessAudioOnStaticAdapter | src/nn/nn_model.c:242-281 | with the static adapter, NN_ProcessAudio never succeeds; past its guard it still uses up a frame id and keeps the hidden state |
| Integration.ProcessAudioOnVirtualAdapter | src/nn/nn_model.c:242-281 | the same with the virtual adapter |
| Integration.ProcessAudioOnCorrectedStaticAdapter | src/nn/nn_model.c:242-281 | with the corrected static adapter and a model that always succeeds, NN_ProcessAudio past its guard, with a backbone result and a history buffer, succeeds and uses up one frame id |

## Left out

- Floating-point numerics are parameters, not computed:
  - attention scores, attention softmax, the weighted logit sum and `apply_softmax` (`src/nn/nn_model.c`);
  - the backbone run and its input copy;
  - the spectrogram's float scaling;
  - the numeric bodies of both adapters' `tflm_invoke`.
  The backbone, the streaming step and the aggregation are function parameters of `NnModel.Collaborators`.
- The DC-blocking `filter` in `src/main.c` is not modelled. Only the index arithmetic after it is; the handler's write of ceil(512/d) samples is not.
- Hardware:
  - flash erase/program (`MSC_*`), modelled as an abstract byte store with a success flag for programming;
  - absolute flash addresses and linker symbols, modelled as a flash image and a size parameter;
  - LEDs, delays, watchdog, USB, SD card writes and battery checks.
- `src/nn/tensor_arena.c` is not part of this model. `TensorArena_Init` is a boolean parameter of `NnModel.Engine.Init`.
- `malloc` results are boolean parameters.
- Interrupt concurrency. The DMA handler is a sequential step, and `writeBuffer` is a parameter held fixed while the record loop drains.
- The record loop's stop conditions (switch change, low battery) are a single parameter.
- `gmtime` is modelled as the time modulo 86400.
- `setHeaderComment`, the WAV comment `sprintf` and the rest of `makeRecording`'s file handling are not modelled.
- Tensor names and debug names (`strncpy`, `name` fields) are not modelled.
- `tflm_destroy_model` has no effect on state and is not modelled.
- The `NN_Get*` accessors only read fields and are not modelled.
- `initialize_models` is the boolean `modelsOk` of `NnModel.Engine.Init`.
- `preprocess_audio_to_spectrogram_REAL` and the other alternative variants of the engine are not modelled.
- Only the integer fields of the recorder configuration are modelled.
- `NUMBER_OF_SAMPLES_IN_BUFFER` is defined at src/main.c:61 as the SRAM size in samples divided by `NUMBER_OF_BUFFERS`. The SRAM size comes from `audioMoth.h`, which is not part of this model, so the buffer size is the class constant `samplesInBuffer` of `Recorder.Recording`.
- Recorder.VisitIsLater: states the "strictly later" property only away from uint32 wrap-around (`FarFromWrap`), as the scheduler assumes.
- Recorder.ScanIsLater: also assumes `FarFromWrap`.
- Recorder.PlanIsLater: also assumes `FarFromWrap`. A zero cycle, which divides by zero in the source, is modelled as an undefined plan.
- Recorder.ShiftForOversampling: requires a nonzero oversampling, because the source's loop never terminates for 0.
- VirtualArena.Arena.AllocTensor: runs the corrected `Alloc`, so it departs from src/nn/virtual_arena.c:84-105 only for a request with `flash_offset + size` of 2^32 or more, which the code accepts once the sum wraps. Such a record can run far past the backing store, which the store invariant the class keeps rules out. The code's arithmetic is `VirtualArena.AllocAsWritten`, and the two agree for every request up to 64 KiB (`VirtualArena.AllocAsWrittenAgrees`), which covers every allocation the adapters make.
- TflmStatic.StaticPool.AllocateTensors: runs the corrected `Allocate`, so it departs from third_party/tflm_wrapper.c:130-170 only for a streaming interpreter with a 512-767-byte arena. The code accepts it, and its `memset` of the hidden-state output at offset 512 runs past the end of the arena, a write a Dafny array cannot take. The code's check is `TflmStatic.AllocateAsWritten` (`TflmStatic.AllocateAgreesAsWritten` bounds the difference).
- Recorder.Recording.DmaTransferComplete: runs the corrected `DmaStep`, so it departs from src/main.c:592-600 only when 512 / divider does not divide the buffer size. There it moves to the next buffer before the next transfer would overflow, where the code's `==` test never moves and the DMA writes past the buffer. The code's step is `Recorder.DmaStepAsWritten` (`Recorder.DmaStepAgreesWhenDividing` shows that the two agree otherwise).
- Recorder.Recording.StartRecording: requires a nonzero oversampling for the same reason; it calls that loop.
- NnModel.Engine.Deinit: the engine holds no interpreter handles (just as `initialize_models` is the boolean `modelsOk`), so the two `tflm_destroy_interpreter` calls and the NULLing of the handles are not part of its contract; what a destroy does is stated by TflmStatic.StaticPool.DestroyInterpreter and TflmVirtual.VirtualPool.DestroyInterpreter.
- VirtualArena.Arena.LoadTensor keeps the code's append-at-`ram_used` placement, which can overlap resident tensors (see Findings). The corrected placement VirtualArena.LoadCompacted is stated on values; the `memmove` that would slide the cache contents is not modelled.
- The virtual adapter's getters return NULL for index 1 (third_party/tflm_wrapper_virtual.c:164-190), so the streaming step cannot succeed there either. No corrected virtual adapter with hidden-state tensors is modelled; the corrected static adapter shows the intended behaviour.

## Findings

| source | as written | input that shows it | evidently intended | confidence | as-written member | corrected member |
|---|---|---|---|---|---|---|
| src/nn/virtual_arena.c:84-105 | the budget check `flash_offset + size > VIRTUAL_ARENA_SIZE` and the rounding `(size + 7) & ~7` are computed in uint32 and wrap | after one 16-byte tensor, a request of 0xFFFFFFF9 is accepted with rounded size 0 and moves the offset to 9 | refuse any request that does not fit the 64 KiB budget | not executed | VirtualArena.AllocAsWrittenAcceptsHugeRequest | VirtualArena.Alloc |
| third_party/tflm_wrapper.c:130-170 | the size check counts only input, output and 256 bytes of padding, not the streaming model's two 256-byte hidden-state buffers | a streaming interpreter with a 512-byte arena passes the check, and output1 is placed at offset 512, running to 768 | refuse arenas too small for the whole layout | not executed | TflmStatic.AllocateAsWrittenOverruns | TflmStatic.AllocateLayoutSound |
| src/main.c:592-600 | the write index advances by 512 / divider and the buffer changes only when the index equals the buffer size exactly | with divider 48 the step is 10; with a 16384-sample buffer the index reaches 16390 after 1639 transfers and the buffer never advances | move to the next buffer once the next transfer would not fit | not executed | Recorder.DmaOverrunsAtDivider48 | Recorder.DmaStep |
| third_party/tflm_wrapper.c:82 | the interpreter's kind is guessed from its arena size, `arena_size >= 1024` meaning backbone | the streaming interpreter is created in a 20 KiB arena, so it is laid out as a backbone, `tflm_get_input_data(.., 1)` is NULL and every NN_ProcessAudio fails at src/nn/nn_model.c:603-608 | lay the interpreter out by its model's kind | not executed | Integration.StaticStreamingRunFails | Integration.CorrectedStreamingRunSucceeds |
| src/nn/virtual_arena.c:184 | after evictions the tensor is placed at `&ram_cache[ram_used]`, which need not be past the tensors still resident | the backbone sequence of VirtualArena.BackboneInvokeTrace places its output at [4032, 6336) while conv2 is still resident at [5184, 6336) | place resident tensors so that no two overlap (the comment at line 183 says a proper allocator is needed) | not executed | VirtualArena.BackboneOutputOverlapsConv2 | VirtualArena.LoadCompacted |
