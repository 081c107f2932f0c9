/** The interpreter adapter over the flash-resident tensor store: a pool of
    two interpreter records whose tensors are store ids. Slot 0 is always
    the backbone and slot 1 the streaming model; the arena a caller passes
    is ignored. The numeric work of an invocation is not modelled, only the
    order in which it fetches tensors from the store and unpins them.

    Handles are slot indices (None for NULL). */
module TflmVirtual {
  import opened Machine
  import opened TflmApi
  import opened VirtualArena

  const MAX_INTERPRETERS: nat := 2

  /** float [1, 18, 40] in, float [1, 18, 32] out. */
  const BACKBONE_INPUT_BYTES: u32 := 1 * 18 * 40 * 4
  const BACKBONE_OUTPUT_BYTES: u32 := 1 * 18 * 32 * 4
  /** float [1, 32] in and out. */
  const STREAMING_INPUT_BYTES: u32 := 1 * 32 * 4
  const STREAMING_OUTPUT_BYTES: u32 := 1 * 32 * 4
  /** conv1, pool1, conv2. */
  const BACKBONE_LAYERS: seq<u32> := [4608, 2304, 1152]
  /** The GRU hidden state. */
  const STREAMING_LAYERS: seq<u32> := [128]

  /** One interpreter record. modelData is the model pointer (0 once the
      record is zeroed); intermediates holds the first num_intermediates
      entries of intermediate_tensor_ids. */
  datatype Interp = Interp(
    modelData: nat,
    inputId: u32,
    outputId: u32,
    intermediates: seq<u32>,
    inputDims: seq<int>,
    outputDims: seq<int>,
    tensorsAllocated: bool,
    isBackbone: bool)

  /** A record after memset to zero. */
  const ZEROED: Interp := Interp(0, 0, 0, [], [0, 0, 0, 0], [0, 0, 0, 0], false, false)

  /** The record tflm_create_interpreter writes into the slot it claims. */
  function NewInterp(model: nat, slot: nat): (r: Interp)
    ensures r.isBackbone <==> slot == 0
    ensures |r.inputDims| == 4 && |r.outputDims| == 4
    ensures !r.tensorsAllocated && r.modelData == model && r.intermediates == []
    ensures r.isBackbone ==> r.inputDims[..3] == [1, 18, 40] && r.outputDims[..3] == [1, 18, 32]
    ensures !r.isBackbone ==> r.inputDims[..2] == [1, 32] && r.outputDims[..2] == [1, 32]
  {
    if slot == 0 then
      ZEROED.(modelData := model, isBackbone := true,
              inputDims := [1, 18, 40, 0], outputDims := [1, 18, 32, 0])
    else
      ZEROED.(modelData := model, isBackbone := false,
              inputDims := [1, 32, 0, 0], outputDims := [1, 32, 0, 0])
  }

  function Layers(rec: Interp): seq<u32> {
    if rec.isBackbone then BACKBONE_LAYERS else STREAMING_LAYERS
  }

  function InputBytes(rec: Interp): u32 {
    if rec.isBackbone then BACKBONE_INPUT_BYTES else STREAMING_INPUT_BYTES
  }

  function OutputBytes(rec: Interp): u32 {
    if rec.isBackbone then BACKBONE_OUTPUT_BYTES else STREAMING_OUTPUT_BYTES
  }

  /** e is d with new records appended: the records d had are untouched,
      the new ones are neither pinned nor resident, and the counters are
      unchanged. */
  ghost predicate Extends(d: Directory, e: Directory) {
    && Inv(d) && Inv(e)
    && d.numTensors <= e.numTensors
    && e.ramUsed == d.ramUsed && e.accessCounter == d.accessCounter
    && (forall j :: 0 <= j < d.numTensors ==> e.table[j] == d.table[j])
    && (forall j :: d.numTensors <= j < e.numTensors ==> !e.table[j].pinned && !e.table[j].inRam)
  }

  /** id, unless INVALID, is one of the records e added to d, of the rounded size. */
  ghost predicate AddedOfSize(d: Directory, e: Directory, id: u32, size: u32)
    requires Inv(e)
  {
    id != INVALID_TENSOR_ID ==> d.numTensors <= id < e.numTensors && e.table[id].size == Align8(size)
  }

  /** One activation allocation as the adapter makes it (not const): it only
      appends to the directory. */
  function AllocActivation(d: Directory, size: u32): (r: (Directory, u32))
    requires Inv(d)
    ensures Extends(d, r.0) && AddedOfSize(d, r.0, r.1, size)
    ensures r.1 == INVALID_TENSOR_ID <==>
              d.numTensors >= MAX_VIRTUAL_TENSORS || d.flashOffset + size > VIRTUAL_ARENA_SIZE
  {
    Alloc(d, size, false)
  }

  lemma {:induction false} ExtendsTrans(a: Directory, b: Directory, c: Directory)
    requires Extends(a, b) && Extends(b, c)
    ensures Extends(a, c)
    ensures forall id: u32, size: u32 {:trigger AddedOfSize(a, c, id, size)} ::
              AddedOfSize(a, b, id, size) ==> AddedOfSize(a, c, id, size)
  {
  }

  /** The intermediate tensors of tflm_allocate_tensors, allocated in layer
      order: conv1, pool1, conv2 for the backbone, the hidden state otherwise. */
  function Intermediates(d: Directory, rec: Interp): (r: (Directory, seq<u32>))
    requires Inv(d)
    ensures Extends(d, r.0) && |r.1| == |Layers(rec)|
    ensures forall k :: 0 <= k < |r.1| ==> AddedOfSize(d, r.0, r.1[k], Layers(rec)[k])
  {
    if rec.isBackbone then
      var conv1 := AllocActivation(d, 4608);
      var pool1 := AllocActivation(conv1.0, 2304);
      var conv2 := AllocActivation(pool1.0, 1152);
      ExtendsTrans(d, conv1.0, pool1.0);
      ExtendsTrans(d, pool1.0, conv2.0);
      ExtendsTrans(conv1.0, pool1.0, conv2.0);
      (conv2.0, [conv1.1, pool1.1, conv2.1])
    else
      var hidden := AllocActivation(d, 128);
      (hidden.0, [hidden.1])
  }

  predicate AllValid(ids: seq<u32>) {
    forall k :: 0 <= k < |ids| ==> ids[k] != INVALID_TENSOR_ID
  }

  /** The allocation calls of tflm_allocate_tensors: the intermediates, then
      the input, then the output, recorded in the interpreter. */
  function AllocateIds(d: Directory, rec: Interp): (r: (Directory, Interp))
    requires Inv(d)
    ensures Extends(d, r.0)
    ensures r.1 == rec.(inputId := r.1.inputId, outputId := r.1.outputId, intermediates := r.1.intermediates)
    ensures |r.1.intermediates| == |Layers(rec)|
    ensures AddedOfSize(d, r.0, r.1.inputId, InputBytes(rec))
    ensures AddedOfSize(d, r.0, r.1.outputId, OutputBytes(rec))
    ensures forall k :: 0 <= k < |r.1.intermediates| ==>
              AddedOfSize(d, r.0, r.1.intermediates[k], Layers(rec)[k])
  {
    var layers := Intermediates(d, rec);
    var input := AllocActivation(layers.0, InputBytes(rec));
    var output := AllocActivation(input.0, OutputBytes(rec));
    ExtendsTrans(d, layers.0, input.0);
    ExtendsTrans(d, input.0, output.0);
    ExtendsTrans(layers.0, input.0, output.0);
    (output.0, rec.(intermediates := layers.1, inputId := input.1, outputId := output.1))
  }

  /** The checks that close tflm_allocate_tensors once every id is recorded:
      OUT_OF_MEMORY on any INVALID id, otherwise mark the record allocated
      and pin its input and output. */
  function Settle(d: Directory, rec: Interp): (r: (Directory, Interp, Status))
    requires Inv(d)
    ensures Inv(r.0)
  {
    if rec.inputId == INVALID_TENSOR_ID || rec.outputId == INVALID_TENSOR_ID || !AllValid(rec.intermediates) then
      (d, rec, OutOfMemory)
    else
      (SetPinned(SetPinned(d, rec.inputId, true), rec.outputId, true), rec.(tensorsAllocated := true), Ok)
  }

  /** tflm_allocate_tensors on a non-NULL record: every allocation is made,
      and the status is OK exactly when none of them returned INVALID. */
  function Allocate(d: Directory, rec: Interp): (r: (Directory, Interp, Status))
    requires Inv(d)
    ensures Inv(r.0)
    ensures r.2 == Ok || r.2 == OutOfMemory
    ensures var ids := AllocateIds(d, rec).1;
            r.2 == Ok <==> ids.inputId != INVALID_TENSOR_ID && ids.outputId != INVALID_TENSOR_ID && AllValid(ids.intermediates)
  {
    var ids := AllocateIds(d, rec);
    Settle(ids.0, ids.1)
  }

  /** A failed allocation releases nothing and leaves the allocated flag as
      it was; a successful one marks the record allocated and changes only
      the pinned flags of its input and output. */
  lemma AllocateOutcome(d: Directory, rec: Interp)
    requires Inv(d)
    ensures var r := Allocate(d, rec);
            var ids := AllocateIds(d, rec);
            && r.1 == ids.1.(tensorsAllocated := r.1.tensorsAllocated)
            && (r.2 == OutOfMemory ==> r == (ids.0, ids.1, OutOfMemory))
            && (r.2 == Ok ==>
                  && r.1.tensorsAllocated
                  && r.0.numTensors == ids.0.numTensors
                  && r.0.table[r.1.inputId] == ids.0.table[r.1.inputId].(pinned := true)
                  && r.0.table[r.1.outputId] == ids.0.table[r.1.outputId].(pinned := true)
                  && (forall j :: 0 <= j < r.0.numTensors && j != r.1.inputId && j != r.1.outputId ==>
                        r.0.table[j] == ids.0.table[j]))
  {
  }

  /** What allocation does to pins: only a successful allocation pins, and
      then exactly the new input and output beside the tensors pinned before. */
  lemma AllocatePins(d: Directory, rec: Interp)
    requires Inv(d)
    ensures var r := Allocate(d, rec);
            && d.numTensors <= r.0.numTensors
            && (forall j :: 0 <= j < d.numTensors ==> r.0.table[j].inRam == d.table[j].inRam)
            && (r.2 == OutOfMemory ==> r.1.tensorsAllocated == rec.tensorsAllocated)
            && (r.2 == OutOfMemory ==>
                  forall j :: 0 <= j < r.0.numTensors ==> r.0.table[j].pinned == (j < d.numTensors && d.table[j].pinned))
            && (r.2 == Ok ==>
                  forall j :: 0 <= j < r.0.numTensors ==>
                    r.0.table[j].pinned == (j == r.1.inputId || j == r.1.outputId || (j < d.numTensors && d.table[j].pinned)))
  {
    var ids := AllocateIds(d, rec);
    assert Extends(d, ids.0);
    AllocateOutcome(d, rec);
  }

  /** The layer loop of tflm_invoke from layer i on: fetch layer i, fail on
      NULL, and after every layer but the first unpin the one before it. */
  function LayersFrom(d: Directory, ids: seq<u32>, i: nat): (r: (Directory, bool))
    requires Inv(d) && i <= |ids|
    ensures Inv(r.0)
    ensures r.0.numTensors == d.numTensors && r.0.flashOffset == d.flashOffset
    ensures r.1 && d.accessCounter + (|ids| - i) <= UINT32_MAX ==>
              r.0.accessCounter == d.accessCounter + (|ids| - i)
    decreases |ids| - i
  {
    if i == |ids| then (d, true)
    else
      var got := Get(d, ids[i]);
      if got.1.None? then (got.0, false)
      else
        var next := if i > 0 then SetPinned(got.0, ids[i - 1], false) else got.0;
        LayersFrom(next, ids, i + 1)
  }

  /** tflm_invoke on a non-NULL record: ERROR when not allocated; otherwise
      fetch the input, the layers, then the output, and report ERROR at the
      first NULL view. A successful invocation makes exactly one store access
      per tensor and leaves the output resident. */
  function Invoke(d: Directory, rec: Interp): (r: (Directory, Status))
    requires Inv(d)
    ensures Inv(r.0)
    ensures r.1 == Ok || r.1 == Error
    ensures !rec.tensorsAllocated ==> r == (d, Error)
    ensures r.0.numTensors == d.numTensors && r.0.flashOffset == d.flashOffset
    ensures r.1 == Ok ==> rec.outputId < r.0.numTensors && r.0.table[rec.outputId].inRam
    ensures r.1 == Ok && d.accessCounter + |rec.intermediates| + 2 <= UINT32_MAX ==>
              r.0.accessCounter == d.accessCounter + |rec.intermediates| + 2
  {
    if !rec.tensorsAllocated then (d, Error)
    else
      var input := Get(d, rec.inputId);
      if input.1.None? then (input.0, Error)
      else
        var layers := LayersFrom(input.0, rec.intermediates, 0);
        if !layers.1 then (layers.0, Error)
        else
          var output := Get(layers.0, rec.outputId);
          (output.0, if output.1.None? then Error else Ok)
  }

  /** Every id of ids names a tensor of d that is resident. */
  ghost predicate AllResident(d: Directory, ids: seq<u32>) {
    forall k :: 0 <= k < |ids| ==> ids[k] < d.numTensors && ids[k] < |d.table| && d.table[ids[k]].inRam
  }

  /** The layer loop over resident layers: every fetch is a hit, so the loop
      succeeds, nothing is paged in or out and every resident tensor stays
      resident. */
  lemma {:induction false} LayersHit(d: Directory, ids: seq<u32>, i: nat)
    requires Inv(d) && i <= |ids| && AllResident(d, ids)
    ensures var r := LayersFrom(d, ids, i);
            && r.1 && r.0.ramUsed == d.ramUsed
            && forall j :: 0 <= j < d.numTensors && d.table[j].inRam ==> r.0.table[j].inRam
    decreases |ids| - i
  {
    if i < |ids| {
      var got := Get(d, ids[i]);
      var next := if i > 0 then SetPinned(got.0, ids[i - 1], false) else got.0;
      assert forall j :: 0 <= j < d.numTensors ==> next.table[j].inRam == d.table[j].inRam;
      LayersHit(next, ids, i + 1);
    }
  }

  /** The layer loop meeting an id outside the store from layer i on fails. */
  lemma {:induction false} LayersMiss(d: Directory, ids: seq<u32>, i: nat, k: nat)
    requires Inv(d) && i <= k < |ids| && ids[k] >= d.numTensors
    ensures !LayersFrom(d, ids, i).1
    decreases |ids| - i
  {
    var got := Get(d, ids[i]);
    if got.1.Some? {
      var next := if i > 0 then SetPinned(got.0, ids[i - 1], false) else got.0;
      LayersMiss(next, ids, i + 1, k);
    }
  }

  /** The "otherwise OK" half of tflm_invoke: when the input, every layer and
      the output are resident, invoking succeeds and pages nothing. */
  lemma InvokeHit(d: Directory, rec: Interp)
    requires Inv(d) && rec.tensorsAllocated
    requires AllResident(d, [rec.inputId] + rec.intermediates + [rec.outputId])
    ensures Invoke(d, rec).1 == Ok && Invoke(d, rec).0.ramUsed == d.ramUsed
  {
    var ids := [rec.inputId] + rec.intermediates + [rec.outputId];
    assert ids[0] == rec.inputId && ids[|ids| - 1] == rec.outputId;
    assert forall k :: 0 <= k < |rec.intermediates| ==> rec.intermediates[k] == ids[k + 1];
    var input := Get(d, rec.inputId);
    assert AllResident(input.0, rec.intermediates);
    LayersHit(input.0, rec.intermediates, 0);
  }

  /** The ERROR half: an allocated record with an input, layer or output id
      outside the store fails, whichever fetch meets it. */
  lemma InvokeMiss(d: Directory, rec: Interp, k: nat)
    requires Inv(d) && rec.tensorsAllocated
    requires var ids := [rec.inputId] + rec.intermediates + [rec.outputId];
             k < |ids| && ids[k] >= d.numTensors
    ensures Invoke(d, rec).1 == Error
  {
    var ids := [rec.inputId] + rec.intermediates + [rec.outputId];
    var input := Get(d, rec.inputId);
    if input.1.Some? && 0 < k < |ids| - 1 {
      assert rec.intermediates[k - 1] == ids[k];
      LayersMiss(input.0, rec.intermediates, 0, k - 1);
    }
  }

  /** The input or output getter on a non-NULL record: only index 0 of an
      allocated record reaches the store. */
  function View(d: Directory, rec: Interp, index: int, id: u32): (r: (Directory, Option<nat>))
    requires Inv(d)
    ensures Inv(r.0)
    ensures index != 0 || !rec.tensorsAllocated ==> r == (d, None)
    ensures index == 0 && rec.tensorsAllocated ==> r == Get(d, id)
  {
    if index != 0 || !rec.tensorsAllocated then (d, None) else Get(d, id)
  }

  /** The interpreter pool and the store it draws tensors from. */
  class VirtualPool {
    var interpreters: seq<Interp>
    var used: seq<bool>
    var arenaInitialized: bool
    const arena: Arena

    ghost predicate Valid()
      reads this, arena, arena.cache
    {
      |interpreters| == MAX_INTERPRETERS && |used| == MAX_INTERPRETERS &&
      arena.Valid() && (arenaInitialized ==> arena.cache != null)
    }

    /** The statics at program start. */
    constructor (store: Arena)
      requires store.Valid()
      ensures Valid() && arena == store
      ensures interpreters == [ZEROED, ZEROED] && used == [false, false] && !arenaInitialized
    {
      interpreters := [ZEROED, ZEROED];
      used := [false, false];
      arenaInitialized := false;
      arena := store;
    }

    /** tflm_create_model: the store is initialised on the first call that
        gets past the argument checks, and again on every later call until
        an initialisation succeeds. mallocOk and linkerSize are passed on to
        VirtualArena_Init. */
    method CreateModel(data: Option<nat>, size: nat, mallocOk: bool, linkerSize: u32) returns (model: Option<nat>)
      requires Valid()
      modifies this, arena, arena.cache
      ensures Valid()
      ensures interpreters == old(interpreters) && used == old(used)
      ensures data.None? || size == 0 ==> model.None? && unchanged(this, arena)
      ensures data.Some? && size > 0 && old(arenaInitialized) ==> model == data && unchanged(this, arena)
      ensures data.Some? && size > 0 && !old(arenaInitialized) ==>
                && arena.Dir() == Reinit(old(arena.Dir()))
                && (model == data <==> arenaInitialized)
                && (model.None? ==> !arenaInitialized)
    {
      if data.None? || size == 0 {
        return None;
      }
      if !arenaInitialized {
        var ok := arena.Init(mallocOk, linkerSize);
        if !ok {
          return None;
        }
        arenaInitialized := true;
      }
      return data;
    }

    /** tflm_create_interpreter: claim the lowest free slot; the arena
        arguments are ignored. */
    method CreateInterpreter(model: Option<nat>) returns (h: Option<nat>)
      requires Valid()
      modifies this
      ensures Valid() && arenaInitialized == old(arenaInitialized)
      ensures model.None? ==> h.None? && unchanged(this)
      ensures model.Some? ==> h == FirstFree(old(used))
      ensures model.Some? && h.None? ==> unchanged(this)
      ensures h.Some? ==>
                && used == old(used)[h.value := true]
                && interpreters == old(interpreters)[h.value := NewInterp(model.value, h.value)]
    {
      if model.None? {
        return None;
      }
      var i := 0;
      while i < MAX_INTERPRETERS
        invariant 0 <= i <= MAX_INTERPRETERS
        invariant forall k :: 0 <= k < i ==> used[k]
        invariant unchanged(this)
      {
        if !used[i] {
          used := used[i := true];
          interpreters := interpreters[i := NewInterp(model.value, i)];
          return Some(i);
        }
        i := i + 1;
      }
      return None;
    }

    /** The intermediate allocations of tflm_allocate_tensors. */
    method AllocateIntermediates(rec: Interp) returns (ids: seq<u32>)
      requires Valid()
      modifies arena
      ensures Valid() && unchanged(this) && arena.cache == old(arena.cache)
      ensures (arena.Dir(), ids) == Intermediates(old(arena.Dir()), rec)
    {
      if rec.isBackbone {
        var conv1 := arena.AllocTensor(4608, false);
        var pool1 := arena.AllocTensor(2304, false);
        var conv2 := arena.AllocTensor(1152, false);
        ids := [conv1, pool1, conv2];
      } else {
        var hidden := arena.AllocTensor(128, false);
        ids := [hidden];
      }
    }

    /** tflm_allocate_tensors. */
    method AllocateTensors(h: Option<nat>) returns (st: Status)
      requires Valid() && (h.Some? ==> h.value < MAX_INTERPRETERS)
      modifies this, arena
      ensures Valid() && used == old(used) && arenaInitialized == old(arenaInitialized)
      ensures h.None? ==> st == InvalidArgument && unchanged(this, arena)
      ensures h.Some? ==>
                var ids := AllocateIds(old(arena.Dir()), old(interpreters[h.value]));
                var r := Settle(ids.0, ids.1);
                && arena.Dir() == r.0
                && interpreters == old(interpreters)[h.value := r.1]
                && st == r.2
    {
      if h.None? {
        return InvalidArgument;
      }
      var rec := interpreters[h.value];
      ghost var spec := AllocateIds(arena.Dir(), rec);
      var ids := AllocateIntermediates(rec);
      ghost var afterLayers := arena.Dir();
      var inputId := arena.AllocTensor(InputBytes(rec), false);
      assert (arena.Dir(), inputId) == AllocActivation(afterLayers, InputBytes(rec));
      ghost var afterInput := arena.Dir();
      var outputId := arena.AllocTensor(OutputBytes(rec), false);
      assert (arena.Dir(), outputId) == AllocActivation(afterInput, OutputBytes(rec));
      rec := rec.(intermediates := ids, inputId := inputId, outputId := outputId);
      assert (arena.Dir(), rec) == spec;
      interpreters := interpreters[h.value := rec];
      ghost var before := interpreters;
      st := SettleAllocation(h.value);
      ghost var fin := Settle(spec.0, spec.1);
      assert arena.Dir() == fin.0 && st == fin.2;
      assert interpreters == before[h.value := fin.1];
    }

    /** The end of tflm_allocate_tensors for the record in slot h. */
    method SettleAllocation(h: nat) returns (st: Status)
      requires Valid() && h < MAX_INTERPRETERS
      modifies this, arena
      ensures Valid() && used == old(used) && arenaInitialized == old(arenaInitialized)
      ensures var r := Settle(old(arena.Dir()), old(interpreters[h]));
              && arena.Dir() == r.0
              && interpreters == old(interpreters)[h := r.1]
              && st == r.2
    {
      var rec := interpreters[h];
      if rec.inputId == INVALID_TENSOR_ID || rec.outputId == INVALID_TENSOR_ID {
        return OutOfMemory;
      }
      var i := 0;
      while i < |rec.intermediates|
        invariant 0 <= i <= |rec.intermediates|
        invariant forall j :: 0 <= j < i ==> rec.intermediates[j] != INVALID_TENSOR_ID
      {
        if rec.intermediates[i] == INVALID_TENSOR_ID {
          return OutOfMemory;
        }
        i := i + 1;
      }
      interpreters := interpreters[h := rec.(tensorsAllocated := true)];
      arena.PinTensor(rec.inputId);
      arena.PinTensor(rec.outputId);
      return Ok;
    }

    /** tflm_get_input_data. */
    method GetInputData(h: Option<nat>, index: int) returns (view: Option<nat>)
      requires Valid() && (h.Some? ==> h.value < MAX_INTERPRETERS)
      requires h.Some? && index == 0 && interpreters[h.value].tensorsAllocated ==> arena.cache != null
      modifies arena, arena.cache
      ensures Valid()
      ensures h.None? ==> view.None? && unchanged(arena)
      ensures h.Some? ==>
                (arena.Dir(), view) == View(old(arena.Dir()), interpreters[h.value], index, interpreters[h.value].inputId)
    {
      if h.None? || index != 0 {
        return None;
      }
      var rec := interpreters[h.value];
      if !rec.tensorsAllocated {
        return None;
      }
      view := arena.GetTensor(rec.inputId);
    }

    /** tflm_get_output_data. */
    method GetOutputData(h: Option<nat>, index: int) returns (view: Option<nat>)
      requires Valid() && (h.Some? ==> h.value < MAX_INTERPRETERS)
      requires h.Some? && index == 0 && interpreters[h.value].tensorsAllocated ==> arena.cache != null
      modifies arena, arena.cache
      ensures Valid()
      ensures h.None? ==> view.None? && unchanged(arena)
      ensures h.Some? ==>
                (arena.Dir(), view) == View(old(arena.Dir()), interpreters[h.value], index, interpreters[h.value].outputId)
    {
      if h.None? || index != 0 {
        return None;
      }
      var rec := interpreters[h.value];
      if !rec.tensorsAllocated {
        return None;
      }
      view := arena.GetTensor(rec.outputId);
    }

    /** The layer loop of tflm_invoke. */
    method RunLayers(ids: seq<u32>) returns (ok: bool)
      requires Valid() && arena.cache != null
      modifies arena, arena.cache
      ensures Valid() && arena.cache == old(arena.cache)
      ensures (arena.Dir(), ok) == LayersFrom(old(arena.Dir()), ids, 0)
    {
      ghost var start := arena.Dir();
      var i := 0;
      while i < |ids|
        invariant 0 <= i <= |ids|
        invariant Valid() && arena.cache == old(arena.cache)
        invariant LayersFrom(arena.Dir(), ids, i) == LayersFrom(start, ids, 0)
      {
        var layer := arena.GetTensor(ids[i]);
        if layer.None? {
          return false;
        }
        if i > 0 {
          arena.UnpinTensor(ids[i - 1]);
        }
        i := i + 1;
      }
      return true;
    }

    /** tflm_invoke. */
    method InvokeInterpreter(h: Option<nat>) returns (st: Status)
      requires Valid() && (h.Some? ==> h.value < MAX_INTERPRETERS)
      requires h.Some? && interpreters[h.value].tensorsAllocated ==> arena.cache != null
      modifies arena, arena.cache
      ensures Valid()
      ensures h.None? ==> st == InvalidArgument && unchanged(arena)
      ensures h.Some? ==> (arena.Dir(), st) == Invoke(old(arena.Dir()), interpreters[h.value])
    {
      if h.None? {
        return InvalidArgument;
      }
      var rec := interpreters[h.value];
      if !rec.tensorsAllocated {
        return Error;
      }
      var input := arena.GetTensor(rec.inputId);
      if input.None? {
        return Error;
      }
      var ok := RunLayers(rec.intermediates);
      if !ok {
        return Error;
      }
      var output := arena.GetTensor(rec.outputId);
      if output.None? {
        return Error;
      }
      return Ok;
    }

    /** tflm_destroy_interpreter: a handle outside the pool changes nothing;
        otherwise its input and output are unpinned, the record zeroed and
        the slot freed. */
    method DestroyInterpreter(h: Option<nat>)
      requires Valid()
      modifies this, arena
      ensures Valid() && arenaInitialized == old(arenaInitialized)
      ensures h.None? || h.value >= MAX_INTERPRETERS ==> unchanged(this, arena)
      ensures h.Some? && h.value < MAX_INTERPRETERS ==>
                var rec := old(interpreters[h.value]);
                && arena.Dir() == SetPinned(SetPinned(old(arena.Dir()), rec.inputId, false), rec.outputId, false)
                && interpreters == old(interpreters)[h.value := ZEROED]
                && used == old(used)[h.value := false]
    {
      if h.None? || h.value >= MAX_INTERPRETERS {
        return;
      }
      var rec := interpreters[h.value];
      arena.UnpinTensor(rec.inputId);
      arena.UnpinTensor(rec.outputId);
      interpreters := interpreters[h.value := ZEROED];
      used := used[h.value := false];
    }
  }
}
