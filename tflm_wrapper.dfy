/** The interpreter adapter that lays its tensors out at fixed offsets in an
    arena the caller supplies: a pool of two interpreter records. A buffer
    pointer is modelled as a byte offset into the record's own arena (None
    for NULL). A handle is a slot index (None for NULL); for
    tflm_destroy_interpreter an index past the pool stands for a pointer
    that is not one of its records. The float arithmetic of an invocation
    is not modelled, only its guards. */
module TflmStatic {
  import opened Machine
  import opened TflmApi

  const MAX_INTERPRETERS: nat := 2
  /** tflm_create_interpreter refuses smaller arenas. */
  const MIN_ARENA_SIZE: nat := 512
  /** An arena at least this large marks the record as the backbone. */
  const BACKBONE_ARENA_THRESHOLD: nat := 1024
  /** The slack tflm_allocate_tensors adds to its size check and its usage figure. */
  const PADDING: nat := 256
  /** NN_GRU_HIDDEN_DIM floats. */
  const HIDDEN_BYTES: nat := 64 * 4

  /** One InterpreterStub. */
  datatype Stub = Stub(
    modelData: Option<nat>,
    modelSize: nat,
    modelValid: bool,
    arena: array?<u8>,
    arenaSize: u32,
    arenaUsed: u32,
    input0: Option<nat>,
    input1: Option<nat>,
    output0: Option<nat>,
    output1: Option<nat>,
    inputDims: seq<int>,
    outputDims: seq<int>,
    tensorsAllocated: bool,
    isBackbone: bool)

  /** A record after memset to zero. */
  const ZEROED: Stub := Stub(None, 0, false, null, 0, 0, None, None, None, None, [0, 0, 0, 0], [0, 0, 0, 0], false, false)

  /** tflm_create_model: the model handle is the data pointer itself. */
  function CreateModel(data: Option<nat>, size: u32): (r: Option<nat>)
    ensures r.None? <==> data.None? || size == 0
    ensures r.Some? ==> r == data
  {
    if data.None? || size == 0 then None else data
  }

  /** The record tflm_create_interpreter writes into the slot it claims. */
  function NewStub(model: nat, arena: array<u8>, size: u32): (r: Stub)
    ensures r.isBackbone <==> size >= BACKBONE_ARENA_THRESHOLD
    ensures r.modelData == Some(model) && r.modelValid && r.arena == arena && r.arenaSize == size
    ensures !r.tensorsAllocated && r.arenaUsed == 0
    ensures r.input0.None? && r.input1.None? && r.output0.None? && r.output1.None?
    ensures |r.inputDims| == 4 && |r.outputDims| == 4
    ensures r.isBackbone ==> r.inputDims == [1, 18, 40, 0] && r.outputDims == [1, 18, 32, 0]
    ensures !r.isBackbone ==> r.inputDims == [1, 32, 0, 0] && r.outputDims == [1, 32, 0, 0]
  {
    NewStubOfKind(model, arena, size, size >= 1024)
  }

  /** A fresh record whose kind is the model's own rather than a guess from
      the size of its region: the corrected form of the record above. */
  function NewStubOfKind(model: nat, arena: array<u8>, size: u32, backbone: bool): (r: Stub)
    ensures r.isBackbone == backbone
    ensures r.modelData == Some(model) && r.modelValid && r.arena == arena && r.arenaSize == size
    ensures !r.tensorsAllocated && r.arenaUsed == 0
    ensures r.input0.None? && r.input1.None? && r.output0.None? && r.output1.None?
    ensures backbone ==> r.inputDims == [1, 18, 40, 0] && r.outputDims == [1, 18, 32, 0]
    ensures !backbone ==> r.inputDims == [1, 32, 0, 0] && r.outputDims == [1, 32, 0, 0]
  {
    Stub(Some(model), 0, true, arena, size, 0, None, None, None, None,
         if backbone then [1, 18, 40, 0] else [1, 32, 0, 0],
         if backbone then [1, 18, 32, 0] else [1, 32, 0, 0],
         false, backbone)
  }

  /** float [1, 18, 40] or [1, 32] in; float [1, 18, 32] or [1, 32] out. */
  function InputBytes(backbone: bool): nat {
    if backbone then 1 * 18 * 40 * 4 else 1 * 32 * 4
  }

  function OutputBytes(backbone: bool): nat {
    if backbone then 1 * 18 * 32 * 4 else 1 * 32 * 4
  }

  /** The offset just past the last buffer tflm_allocate_tensors lays out:
      input then output for the backbone; input, hidden in, output, hidden
      out for the streaming model. */
  function LayoutEnd(backbone: bool): nat {
    if backbone then InputBytes(true) + OutputBytes(true)
    else InputBytes(false) + HIDDEN_BYTES + OutputBytes(false) + HIDDEN_BYTES
  }

  /** The record once its buffers are laid out from offset 0. */
  function LaidOut(rec: Stub): (r: Stub)
    ensures r.tensorsAllocated && r.arenaUsed == LayoutEnd(rec.isBackbone) + PADDING
    ensures r == rec.(input0 := r.input0, input1 := r.input1, output0 := r.output0, output1 := r.output1,
                      arenaUsed := r.arenaUsed, tensorsAllocated := true)
    ensures r.isBackbone ==>
              r.input0 == Some(0) && r.output0 == Some(InputBytes(true)) && r.input1.None? && r.output1.None?
    ensures !r.isBackbone ==>
              && r.input0 == Some(0) && r.input1 == Some(InputBytes(false))
              && r.output0 == Some(InputBytes(false) + HIDDEN_BYTES)
              && r.output1 == Some(InputBytes(false) + HIDDEN_BYTES + OutputBytes(false))
  {
    if rec.isBackbone then
      rec.(input0 := Some(0), output0 := Some(2880), input1 := None, output1 := None,
           arenaUsed := 2880 + 2304 + 256, tensorsAllocated := true)
    else
      rec.(input0 := Some(0), input1 := Some(128), output0 := Some(384), output1 := Some(512),
           arenaUsed := 768 + 256, tensorsAllocated := true)
  }

  /** The size check tflm_allocate_tensors makes: input plus output plus the
      padding, which leaves out the two hidden-state buffers. */
  predicate AsWrittenTooSmall(rec: Stub) {
    InputBytes(rec.isBackbone) + OutputBytes(rec.isBackbone) + PADDING > rec.arenaSize
  }

  /** tflm_allocate_tensors as the source writes it. */
  function AllocateAsWritten(rec: Stub): (r: (Stub, Status))
    ensures r.1 == OutOfMemory <==> AsWrittenTooSmall(rec)
    ensures r.1 == Ok || r.1 == OutOfMemory
    ensures r.1 == OutOfMemory ==> r.0 == rec
    ensures r.1 == Ok ==> r.0 == LaidOut(rec)
  {
    if AsWrittenTooSmall(rec) then (rec, OutOfMemory) else (LaidOut(rec), Ok)
  }

  /** The streaming layout passes the source's check with a 512-byte arena,
      the smallest tflm_create_interpreter accepts, and its last buffer then
      runs to offset 768, past the end of the arena. */
  lemma AllocateAsWrittenOverruns(model: nat, arena: array<u8>)
    ensures var r := AllocateAsWritten(NewStub(model, arena, 512));
            && r.1 == Ok
            && r.0.output1 == Some(512)
            && r.0.output1.value + HIDDEN_BYTES > r.0.arenaSize
  {
  }

  /** The corrected size check: besides the source's condition, every buffer
      the layout writes must lie inside the arena. */
  predicate TooSmall(rec: Stub) {
    AsWrittenTooSmall(rec) || LayoutEnd(rec.isBackbone) > rec.arenaSize
  }

  /** tflm_allocate_tensors on a non-NULL record, with the corrected check. */
  function Allocate(rec: Stub): (r: (Stub, Status))
    ensures r.1 == Ok || r.1 == OutOfMemory
    ensures r.1 == OutOfMemory <==> TooSmall(rec)
    ensures r.1 == OutOfMemory ==> r.0 == rec
    ensures r.1 == Ok ==> r.0 == LaidOut(rec)
  {
    if TooSmall(rec) then (rec, OutOfMemory) else (LaidOut(rec), Ok)
  }

  /** The correction only matters for streaming records: on a backbone record
      the two checks agree, and on a streaming record they differ exactly for
      arenas of 512 to 767 bytes. */
  lemma AllocateAgreesAsWritten(rec: Stub)
    ensures rec.isBackbone ==> Allocate(rec) == AllocateAsWritten(rec)
    ensures !rec.isBackbone ==>
              (Allocate(rec) == AllocateAsWritten(rec) <==> !(512 <= rec.arenaSize < 768))
  {
  }

  /** A buffer of the given size at the given offset, or NULL. */
  ghost predicate Inside(buf: Option<nat>, size: nat, limit: nat) {
    buf.Some? ==> buf.value + size <= limit
  }

  ghost predicate Apart(a: Option<nat>, sa: nat, b: Option<nat>, sb: nat) {
    a.Some? && b.Some? ==> a.value + sa <= b.value || b.value + sb <= a.value
  }

  /** A successful allocation gives buffers that lie inside the arena, do not
      overlap and are NULL exactly for a backbone's second input and output. */
  lemma AllocateLayoutSound(rec: Stub)
    requires Allocate(rec).1 == Ok
    ensures var r := Allocate(rec).0;
            var (ib, ob) := (InputBytes(rec.isBackbone), OutputBytes(rec.isBackbone));
            && Inside(r.input0, ib, rec.arenaSize) && Inside(r.output0, ob, rec.arenaSize)
            && Inside(r.input1, HIDDEN_BYTES, rec.arenaSize) && Inside(r.output1, HIDDEN_BYTES, rec.arenaSize)
            && Apart(r.input0, ib, r.output0, ob) && Apart(r.input0, ib, r.input1, HIDDEN_BYTES)
            && Apart(r.input0, ib, r.output1, HIDDEN_BYTES) && Apart(r.input1, HIDDEN_BYTES, r.output0, ob)
            && Apart(r.input1, HIDDEN_BYTES, r.output1, HIDDEN_BYTES) && Apart(r.output0, ob, r.output1, HIDDEN_BYTES)
            && r.input0.Some? && r.output0.Some?
            && (r.input1.None? <==> rec.isBackbone) && (r.output1.None? <==> rec.isBackbone)
  {
    assert LayoutEnd(rec.isBackbone) <= rec.arenaSize;
  }

  /** What tflm_get_input_dims / tflm_get_output_dims report: the number of
      dimensions written, or -1. */
  function DimsCount(handle: bool, index: int, dimsPresent: bool, maxDims: int, backbone: bool): (n: int)
    ensures n == -1 || n == 2 || n == 3
    ensures n != -1 <==> handle && index == 0 && dimsPresent && maxDims >= (if backbone then 3 else 2)
    ensures n != -1 ==> n <= maxDims && (n == 3 <==> backbone)
  {
    if !handle || index != 0 || !dimsPresent then -1
    else if backbone then (if maxDims >= 3 then 3 else -1)
    else (if maxDims >= 2 then 2 else -1)
  }

  /** The two-record pool. */
  class StaticPool {
    var interpreters: seq<Stub>
    var used: seq<bool>

    /** Every record's arena holds at least arenaSize bytes; a record without
        an arena has size 0. */
    ghost predicate Valid()
      reads this
    {
      && |interpreters| == MAX_INTERPRETERS && |used| == MAX_INTERPRETERS
      && forall i :: 0 <= i < MAX_INTERPRETERS ==>
           if interpreters[i].arena == null then interpreters[i].arenaSize == 0
           else interpreters[i].arenaSize <= interpreters[i].arena.Length
    }

    /** The statics at program start. */
    constructor ()
      ensures Valid() && interpreters == [ZEROED, ZEROED] && used == [false, false]
    {
      interpreters := [ZEROED, ZEROED];
      used := [false, false];
    }

    /** tflm_create_interpreter. The caller's arena must hold arenaSize bytes. */
    method CreateInterpreter(model: Option<nat>, arena: array?<u8>, arenaSize: u32) returns (h: Option<nat>)
      requires Valid() && (arena != null ==> arenaSize <= arena.Length)
      modifies this
      ensures Valid()
      ensures model.None? || arena == null || arenaSize < MIN_ARENA_SIZE ==> h.None? && unchanged(this)
      ensures model.Some? && arena != null && arenaSize >= MIN_ARENA_SIZE ==> h == FirstFree(old(used))
      ensures h.None? ==> unchanged(this)
      ensures h.Some? ==>
                && arena != null && model.Some?
                && used == old(used)[h.value := true]
                && interpreters == old(interpreters)[h.value := NewStub(model.value, arena, arenaSize)]
    {
      if model.None? || arena == null || arenaSize < 512 {
        return None;
      }
      var i := 0;
      while i < MAX_INTERPRETERS
        invariant 0 <= i <= MAX_INTERPRETERS
        invariant forall k :: 0 <= k < i ==> used[k]
        invariant unchanged(this)
      {
        if !used[i] {
          used := used[i := true];
          interpreters := interpreters[i := NewStub(model.value, arena, arenaSize)];
          return Some(i);
        }
        i := i + 1;
      }
      return None;
    }

    /** tflm_allocate_tensors: lay the buffers out and zero them. Nothing
        outside the laid-out bytes of the arena changes. */
    method AllocateTensors(h: Option<nat>) returns (st: Status)
      requires Valid() && (h.Some? ==> h.value < MAX_INTERPRETERS)
      modifies this, if h.Some? then interpreters[h.value].arena else null
      ensures Valid() && used == old(used)
      ensures h.None? ==> st == InvalidArgument && unchanged(this)
      ensures h.Some? ==>
                var r := Allocate(old(interpreters[h.value]));
                && interpreters == old(interpreters)[h.value := r.0]
                && st == r.1
      ensures h.Some? && interpreters[h.value].arena != null ==>
                var a := interpreters[h.value].arena;
                forall i :: 0 <= i < a.Length ==>
                  a[i] == if st == Ok && i < LayoutEnd(interpreters[h.value].isBackbone) then 0 else old(a[i])
    {
      if h.None? {
        return InvalidArgument;
      }
      var rec := interpreters[h.value];
      var inputSize := if rec.isBackbone then 2880 else 128;
      var outputSize := if rec.isBackbone then 2304 else 128;
      if inputSize + outputSize + 256 > rec.arenaSize as nat || LayoutEnd(rec.isBackbone) > rec.arenaSize as nat {
        return OutOfMemory;
      }
      var arena := rec.arena;
      if rec.isBackbone {
        Zero(arena, 0, inputSize);
        Zero(arena, inputSize, outputSize);
        rec := rec.(input0 := Some(0), output0 := Some(inputSize), input1 := None, output1 := None,
                    arenaUsed := inputSize + outputSize + 256);
      } else {
        Zero(arena, 0, inputSize);
        Zero(arena, inputSize, HIDDEN_BYTES);
        Zero(arena, inputSize + HIDDEN_BYTES, outputSize);
        Zero(arena, inputSize + HIDDEN_BYTES + outputSize, HIDDEN_BYTES);
        rec := rec.(input0 := Some(0), input1 := Some(inputSize), output0 := Some(inputSize + HIDDEN_BYTES),
                    output1 := Some(inputSize + HIDDEN_BYTES + outputSize),
                    arenaUsed := inputSize + HIDDEN_BYTES + outputSize + HIDDEN_BYTES + 256);
      }
      rec := rec.(tensorsAllocated := true);
      interpreters := interpreters[h.value := rec];
      return Ok;
    }

    /** tflm_get_input_data: NULL for a NULL or unallocated handle; index 0
        and 1 select the two inputs, any other index gives NULL. */
    method GetInputData(h: Option<nat>, index: int) returns (buf: Option<nat>)
      requires Valid() && (h.Some? ==> h.value < MAX_INTERPRETERS)
      ensures h.None? || !interpreters[h.value].tensorsAllocated || (index != 0 && index != 1) ==> buf.None?
      ensures h.Some? && interpreters[h.value].tensorsAllocated && index == 0 ==> buf == interpreters[h.value].input0
      ensures h.Some? && interpreters[h.value].tensorsAllocated && index == 1 ==> buf == interpreters[h.value].input1
    {
      if h.None? {
        return None;
      }
      var rec := interpreters[h.value];
      if !rec.tensorsAllocated {
        return None;
      }
      if index == 0 {
        return rec.input0;
      } else if index == 1 {
        return rec.input1;
      }
      return None;
    }

    /** tflm_get_output_data, the same dispatch over the outputs. */
    method GetOutputData(h: Option<nat>, index: int) returns (buf: Option<nat>)
      requires Valid() && (h.Some? ==> h.value < MAX_INTERPRETERS)
      ensures h.None? || !interpreters[h.value].tensorsAllocated || (index != 0 && index != 1) ==> buf.None?
      ensures h.Some? && interpreters[h.value].tensorsAllocated && index == 0 ==> buf == interpreters[h.value].output0
      ensures h.Some? && interpreters[h.value].tensorsAllocated && index == 1 ==> buf == interpreters[h.value].output1
    {
      if h.None? {
        return None;
      }
      var rec := interpreters[h.value];
      if !rec.tensorsAllocated {
        return None;
      }
      if index == 0 {
        return rec.output0;
      } else if index == 1 {
        return rec.output1;
      }
      return None;
    }

    /** The guards of tflm_invoke. */
    method Invoke(h: Option<nat>) returns (st: Status)
      requires Valid() && (h.Some? ==> h.value < MAX_INTERPRETERS)
      ensures h.None? <==> st == InvalidArgument
      ensures h.Some? ==> (st == Ok <==> interpreters[h.value].tensorsAllocated)
      ensures st == Ok || st == Error || st == InvalidArgument
    {
      if h.None? {
        return InvalidArgument;
      }
      if !interpreters[h.value].tensorsAllocated {
        return Error;
      }
      return Ok;
    }

    /** tflm_get_input_dims: writes the dimensions of input 0 into dims and
        returns how many it wrote, or -1. The caller's dims array holds
        maxDims entries. The stored inputDims are not consulted. */
    method GetInputDims(h: Option<nat>, index: int, dims: array?<int>, maxDims: int) returns (n: int)
      requires Valid() && (h.Some? ==> h.value < MAX_INTERPRETERS)
      requires dims != null ==> maxDims <= dims.Length
      modifies dims
      ensures n == DimsCount(h.Some?, index, dims != null, maxDims, h.Some? && interpreters[h.value].isBackbone)
      ensures n == 3 ==> dims[..3] == [1, 18, 40]
      ensures n == 2 ==> dims[..2] == [1, 32]
      ensures dims != null ==> forall i :: (if n < 0 then 0 else n) <= i < dims.Length ==> dims[i] == old(dims[i])
    {
      if h.None? || index != 0 || dims == null {
        return -1;
      }
      if interpreters[h.value].isBackbone {
        if maxDims >= 3 {
          dims[0], dims[1], dims[2] := 1, 18, 40;
          return 3;
        }
      } else {
        if maxDims >= 2 {
          dims[0], dims[1] := 1, 32;
          return 2;
        }
      }
      return -1;
    }

    /** tflm_get_output_dims, the same over output 0. */
    method GetOutputDims(h: Option<nat>, index: int, dims: array?<int>, maxDims: int) returns (n: int)
      requires Valid() && (h.Some? ==> h.value < MAX_INTERPRETERS)
      requires dims != null ==> maxDims <= dims.Length
      modifies dims
      ensures n == DimsCount(h.Some?, index, dims != null, maxDims, h.Some? && interpreters[h.value].isBackbone)
      ensures n == 3 ==> dims[..3] == [1, 18, 32]
      ensures n == 2 ==> dims[..2] == [1, 32]
      ensures dims != null ==> forall i :: (if n < 0 then 0 else n) <= i < dims.Length ==> dims[i] == old(dims[i])
    {
      if h.None? || index != 0 || dims == null {
        return -1;
      }
      if interpreters[h.value].isBackbone {
        if maxDims >= 3 {
          dims[0], dims[1], dims[2] := 1, 18, 32;
          return 3;
        }
      } else {
        if maxDims >= 2 {
          dims[0], dims[1] := 1, 32;
          return 2;
        }
      }
      return -1;
    }

    /** tflm_get_arena_used_bytes. */
    method ArenaUsedBytes(h: Option<nat>) returns (n: u32)
      requires Valid() && (h.Some? ==> h.value < MAX_INTERPRETERS)
      ensures h.None? || !interpreters[h.value].tensorsAllocated ==> n == 0
      ensures h.Some? && interpreters[h.value].tensorsAllocated ==> n == interpreters[h.value].arenaUsed
    {
      if h.None? {
        return 0;
      }
      var rec := interpreters[h.value];
      return if rec.tensorsAllocated then rec.arenaUsed else 0;
    }

    /** tflm_destroy_interpreter: the matching record is zeroed and its slot
        freed; a pointer that is not one of the records changes nothing. */
    method DestroyInterpreter(h: Option<nat>)
      requires Valid()
      modifies this
      ensures Valid()
      ensures h.None? || h.value >= MAX_INTERPRETERS ==> unchanged(this)
      ensures h.Some? && h.value < MAX_INTERPRETERS ==>
                && used == old(used)[h.value := false]
                && interpreters == old(interpreters)[h.value := ZEROED]
    {
      if h.None? {
        return;
      }
      var i := 0;
      while i < MAX_INTERPRETERS
        invariant 0 <= i <= MAX_INTERPRETERS
        invariant i <= h.value
        invariant unchanged(this)
      {
        if i == h.value {
          used := used[i := false];
          interpreters := interpreters[i := ZEROED];
          return;
        }
        i := i + 1;
      }
    }
  }

  /** memset(a + from, 0, count). */
  method Zero(a: array<u8>, from: nat, count: nat)
    requires from + count <= a.Length
    modifies a
    ensures forall i :: 0 <= i < a.Length ==> a[i] == if from <= i < from + count then 0 else old(a[i])
  {
    var k := from;
    while k < from + count
      invariant from <= k <= from + count
      invariant forall i :: 0 <= i < a.Length ==> a[i] == if from <= i < k then 0 else old(a[i])
    {
      a[k] := 0;
      k := k + 1;
    }
  }
}
